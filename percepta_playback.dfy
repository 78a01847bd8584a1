/** The client half of the speech pipeline: `playTextToSpeech` on the Percepta
    demo page and the `isPlaying` flag that drives the notification button.

    The page's asynchronous function is cut at the places where it waits for
    the outside world. Each such place, and each callback the page registers,
    is one event: the button click (which runs the function up to the gateway
    request), the gateway's reply (which runs it to its end, through the blob,
    `play()` and, when the `try` block throws, the local synthesis fallback),
    the audio element's `onended`, and the utterance's `onend`. What the
    browser does (the reply, whether `play()` rejects, whether speech synthesis
    exists and whether `speak` throws) arrives as a parameter of the event. */
module PerceptaPlayback {
  import opened Wrappers

  /** Object URLs, numbered in the order `URL.createObjectURL` hands them out. */
  type Url = nat

  /** The utterance given to the local synthesiser. Rate, pitch and volume are
      constants compared for equality, never computed with. */
  datatype Utterance = Utterance(text: string, rate: real, pitch: real, volume: real)

  const SpeechRate: real := 0.8
  const SpeechPitch: real := 1.0
  const SpeechVolume: real := 1.0
  const GatewayPath := "/api/text-to-speech"

  /** What the page does to the world, in order. */
  datatype Effect =
    | SetPlaying(on: bool)           // setIsPlaying
    | GatewayRequest(path: string, text: string)   // POST {text} to the gateway
    | CreateUrl(url: Url)            // URL.createObjectURL on the reply's blob
    | PlayAudio(url: Url)            // audio.play() on that URL
    | RevokeUrl(url: Url)            // URL.revokeObjectURL
    | Speak(utterance: Utterance)    // speechSynthesis.speak accepted the utterance

  /** How the audio path went once a reply labelled audio was ok. */
  datatype AudioOutcome = BlobRejected | PlayRejected | PlayStarted

  /** The gateway reply as the page sees it: the fetch rejects, or a response
      with its `ok` flag and its `content-type` header. `audio` only matters
      when the page takes the audio path. */
  datatype GatewayReply =
    | FetchRejected
    | Reply(ok: bool, contentType: Option<string>, audio: AudioOutcome)

  /** The browser's local speech synthesis: missing from `window`, throwing
      when the utterance is built or spoken, or speaking. */
  datatype Synthesis = Unavailable | SpeakThrows | SpeakStarted

  /** What the page is waiting for: nothing, the gateway reply, the audio
      element's `onended`, or the utterance's `onend`. */
  datatype Pending = NoContinuation | AwaitingGateway | AwaitingAudioEnd(url: Url) | AwaitingSpeechEnd

  datatype Event =
    | Click
    | GatewayReplied(reply: GatewayReply, synthesis: Synthesis)
    | AudioEnded
    | UtteranceEnded

  /** The page's state: the text shown, `isPlaying`, the pending continuation,
      the object URLs created and not yet revoked, the next URL to be handed
      out, and everything done so far. */
  datatype Controller = Controller(
    text: string,
    isPlaying: bool,
    pending: Pending,
    liveUrls: set<Url>,
    nextUrl: nat,
    log: seq<Effect>)

  function Initial(text: string): Controller {
    Controller(text, false, NoContinuation, {}, 0, [])
  }

  /** `contentType?.includes("audio")`. */
  predicate Contains(s: string, sub: string)
    decreases |s|
  {
    sub <= s || (s != [] && Contains(s[1..], sub))
  }

  predicate HasAudio(contentType: Option<string>) {
    contentType.Some? && Contains(contentType.value, "audio")
  }

  /** Whether the reply sends the page down the audio path. */
  predicate AudioReply(reply: GatewayReply) {
    reply.Reply? && reply.ok && HasAudio(reply.contentType)
  }

  /** Whether the `try` block throws: the fetch, the blob or `play()` rejects. */
  predicate TryThrows(reply: GatewayReply) {
    reply.FetchRejected? || (AudioReply(reply) && reply.audio != PlayStarted)
  }

  /** The `catch` block: speak the text locally, or give up at once. */
  function LocalSynthesis(c: Controller, synthesis: Synthesis): (r: Controller)
    ensures r.text == c.text && r.liveUrls == c.liveUrls && r.nextUrl == c.nextUrl
    ensures synthesis == SpeakStarted ==>
      r.isPlaying == c.isPlaying && r.pending == AwaitingSpeechEnd &&
      r.log == c.log + [Speak(Utterance(c.text, SpeechRate, SpeechPitch, SpeechVolume))]
    ensures synthesis != SpeakStarted ==>
      !r.isPlaying && r.pending == c.pending && r.log == c.log + [SetPlaying(false)]
  {
    match synthesis
    case SpeakStarted =>
      c.(pending := AwaitingSpeechEnd,
         log := c.log + [Speak(Utterance(c.text, SpeechRate, SpeechPitch, SpeechVolume))])
    case _ =>
      c.(isPlaying := false, log := c.log + [SetPlaying(false)])
  }

  /** The rest of `playTextToSpeech` once the gateway has replied, as written. */
  function Respond(c: Controller, reply: GatewayReply, synthesis: Synthesis): Controller {
    var c := c.(pending := NoContinuation);
    match reply
    case FetchRejected => LocalSynthesis(c, synthesis)
    case Reply(ok, contentType, audio) =>
      if ok && HasAudio(contentType) then
        if audio == BlobRejected then LocalSynthesis(c, synthesis)
        else
          var u := c.nextUrl;
          var started := c.(liveUrls := c.liveUrls + {u}, nextUrl := u + 1,
                            log := c.log + [CreateUrl(u), PlayAudio(u)]);
          if audio == PlayStarted then started.(pending := AwaitingAudioEnd(u))
          else LocalSynthesis(started, synthesis)
      else
        // A reply that is not ok, or ok without audio (the gateway's
        // `{fallback: true}` JSON), matches no branch: the function returns.
        c
  }

  /** One event, as the page handles it. */
  function Step(c: Controller, e: Event): Controller {
    match e
    case Click =>
      // `disabled={isPlaying}`: a click while playing does nothing.
      if c.isPlaying then c
      else c.(isPlaying := true, pending := AwaitingGateway,
              log := c.log + [SetPlaying(true), GatewayRequest(GatewayPath, c.text)])
    case GatewayReplied(reply, synthesis) =>
      if c.pending == AwaitingGateway then Respond(c, reply, synthesis) else c
    case AudioEnded =>
      if c.pending.AwaitingAudioEnd? then
        var u := c.pending.url;
        c.(isPlaying := false, pending := NoContinuation, liveUrls := c.liveUrls - {u},
           log := c.log + [SetPlaying(false), RevokeUrl(u)])
      else c
    case UtteranceEnded =>
      if c.pending == AwaitingSpeechEnd then
        c.(isPlaying := false, pending := NoContinuation, log := c.log + [SetPlaying(false)])
      else c
  }

  function Run(c: Controller, es: seq<Event>): Controller
    decreases |es|
  {
    if es == [] then c else Run(Step(c, es[0]), es[1..])
  }

  /** What holds of every state the page reaches: it waits for something only
      while playing, the audio it waits on has a live URL, and every live URL
      was handed out. */
  predicate Inv(c: Controller) {
    && (c.pending != NoContinuation ==> c.isPlaying)
    && (c.pending.AwaitingAudioEnd? ==> c.pending.url in c.liveUrls)
    && (forall u :: u in c.liveUrls ==> u < c.nextUrl)
  }

  lemma StepKeepsInv(c: Controller, e: Event)
    requires Inv(c)
    ensures Inv(Step(c, e))
    ensures Step(c, e).text == c.text
    ensures |Step(c, e).log| >= |c.log| && Step(c, e).log[..|c.log|] == c.log
  {
  }

  /** Every state reached from a valid one by any events is valid, and the
      effects already done are never undone. */
  lemma {:induction false} RunKeepsInv(c: Controller, es: seq<Event>)
    requires Inv(c)
    ensures Inv(Run(c, es))
    ensures Run(c, es).text == c.text
    ensures |Run(c, es).log| >= |c.log| && Run(c, es).log[..|c.log|] == c.log
    decreases |es|
  {
    if es != [] {
      StepKeepsInv(c, es[0]);
      var d := Step(c, es[0]);
      RunKeepsInv(d, es[1..]);
      assert Run(d, es[1..]).log[..|c.log|] == Run(d, es[1..]).log[..|d.log|][..|c.log|];
    }
  }

  /** The effects of one event. */
  function NewEffects(c: Controller, e: Event): seq<Effect>
    requires Inv(c)
  {
    StepKeepsInv(c, e);
    Step(c, e).log[|c.log|..]
  }

  /** A click on an idle page sets `isPlaying` before the gateway request is sent. */
  lemma ClickPlaysThenRequests(c: Controller)
    requires Inv(c) && !c.isPlaying
    ensures NewEffects(c, Click) == [SetPlaying(true), GatewayRequest(GatewayPath, c.text)]
    ensures Step(c, Click).isPlaying && Step(c, Click).pending == AwaitingGateway
  {
  }

  /** The button is disabled while playing: a click then changes nothing. */
  lemma DisabledWhilePlaying(c: Controller)
    requires c.isPlaying
    ensures Step(c, Click) == c
  {
  }

  /** An ok audio reply whose playback starts creates one URL and keeps
      `isPlaying` until `onended`, which clears it and revokes that same URL. */
  lemma AudioPlaysUntilEnded(c: Controller, contentType: string, synthesis: Synthesis)
    requires Inv(c) && c.pending == AwaitingGateway
    requires Contains(contentType, "audio")
    ensures var d := Step(c, GatewayReplied(Reply(true, Some(contentType), PlayStarted), synthesis));
      && d.isPlaying
      && d.pending == AwaitingAudioEnd(c.nextUrl)
      && d.liveUrls == c.liveUrls + {c.nextUrl}
      && NewEffects(c, GatewayReplied(Reply(true, Some(contentType), PlayStarted), synthesis))
         == [CreateUrl(c.nextUrl), PlayAudio(c.nextUrl)]
      && var f := Step(d, AudioEnded);
         !f.isPlaying && f.pending == NoContinuation && c.nextUrl !in f.liveUrls &&
         f.log == d.log + [SetPlaying(false), RevokeUrl(c.nextUrl)]
  {
  }

  /** Local synthesis is attempted exactly when the `try` block throws and the
      browser can speak; never for a reply that is not ok or not audio. */
  lemma SpeaksOnlyWhenTryThrows(c: Controller, reply: GatewayReply, synthesis: Synthesis)
    requires Inv(c) && c.pending == AwaitingGateway
    ensures (exists i :: 0 <= i < |NewEffects(c, GatewayReplied(reply, synthesis))| &&
               NewEffects(c, GatewayReplied(reply, synthesis))[i].Speak?)
        <==> TryThrows(reply) && synthesis == SpeakStarted
  {
    var es := NewEffects(c, GatewayReplied(reply, synthesis));
    if TryThrows(reply) && synthesis == SpeakStarted {
      assert es[|es| - 1].Speak?;
    }
  }

  /** A reply that is not ok, or ok without an audio content type, leaves
      `isPlaying` true, does nothing, and leaves nothing to wait for. */
  lemma NonAudioReplyDoesNothing(c: Controller, reply: GatewayReply, synthesis: Synthesis)
    requires Inv(c) && c.pending == AwaitingGateway
    requires reply.Reply? && !AudioReply(reply)
    ensures Step(c, GatewayReplied(reply, synthesis)) == c.(pending := NoContinuation)
    ensures Step(c, GatewayReplied(reply, synthesis)).isPlaying
  {
  }

  /** In the fallback the utterance speaks the page's text with rate 0.8, pitch
      1 and volume 1, and its `onend` clears `isPlaying`. */
  lemma FallbackSpeaksThenEnds(c: Controller)
    requires Inv(c) && c.pending == AwaitingGateway
    ensures var d := Step(c, GatewayReplied(FetchRejected, SpeakStarted));
      && d.isPlaying && d.pending == AwaitingSpeechEnd
      && NewEffects(c, GatewayReplied(FetchRejected, SpeakStarted))
         == [Speak(Utterance(c.text, 0.8, 1.0, 1.0))]
      && !Step(d, UtteranceEnded).isPlaying
      && Step(d, UtteranceEnded).pending == NoContinuation
  {
  }

  /** With no speech synthesis, or one that throws, `isPlaying` is cleared at once. */
  lemma NoSynthesisStopsAtOnce(c: Controller, reply: GatewayReply, synthesis: Synthesis)
    requires Inv(c) && c.pending == AwaitingGateway
    requires TryThrows(reply) && synthesis != SpeakStarted
    ensures !Step(c, GatewayReplied(reply, synthesis)).isPlaying
    ensures Step(c, GatewayReplied(reply, synthesis)).pending == NoContinuation
  {
  }

  // ---------------------------------------------------------------------------
  // Findings: two ways the page departs from its evident intent.

  /** A playing page that waits for nothing is stuck: no event changes it. */
  lemma {:induction false} StuckStaysStuck(c: Controller, es: seq<Event>)
    requires c.isPlaying && c.pending == NoContinuation
    ensures Run(c, es) == c
    decreases |es|
  {
    if es != [] {
      assert Step(c, es[0]) == c;
      StuckStaysStuck(c, es[1..]);
    }
  }

  /** As written: after the gateway's 200 `{fallback: true}` reply (or any reply
      that is not ok), `isPlaying` stays true whatever happens next, so the
      button stays disabled and nothing is ever spoken. */
  lemma FallbackReplyNeverSettles(c: Controller, reply: GatewayReply, synthesis: Synthesis, es: seq<Event>)
    requires Inv(c) && c.pending == AwaitingGateway
    requires reply.Reply? && !AudioReply(reply)
    ensures Run(Step(c, GatewayReplied(reply, synthesis)), es).isPlaying
    ensures Run(Step(c, GatewayReplied(reply, synthesis)), es).log == c.log
  {
    StuckStaysStuck(Step(c, GatewayReplied(reply, synthesis)), es);
  }

  /** As written: when `play()` rejects, the catch block never revokes the URL;
      the page goes idle with that URL still live. */
  lemma PlayRejectedLeaksUrl()
    ensures var c := Run(Initial("Hazard ahead"),
                         [Click, GatewayReplied(Reply(true, Some("audio/mpeg"), PlayRejected), SpeakStarted), UtteranceEnded]);
      !c.isPlaying && c.liveUrls == {0}
  {
    var reply := Reply(true, Some("audio/mpeg"), PlayRejected);
    assert HasAudio(reply.contentType);
    var c0 := Initial("Hazard ahead");
    var c1 := Step(c0, Click);
    var c2 := Step(c1, GatewayReplied(reply, SpeakStarted));
    assert c2.liveUrls == {0} && c2.pending == AwaitingSpeechEnd;
    var c3 := Step(c2, UtteranceEnded);
    assert !c3.isPlaying && c3.liveUrls == {0};
    assert Run(c2, [UtteranceEnded]) == c3;
    assert Run(c1, [GatewayReplied(reply, SpeakStarted), UtteranceEnded]) == c3;
  }

  /** The evident intent: every reply that brings no playable audio falls back
      to local synthesis, and a rejected `play()` releases its URL first. */
  function IntendedRespond(c: Controller, reply: GatewayReply, synthesis: Synthesis): Controller {
    var c := c.(pending := NoContinuation);
    if AudioReply(reply) && reply.audio != BlobRejected then
      var u := c.nextUrl;
      if reply.audio == PlayStarted then
        c.(liveUrls := c.liveUrls + {u}, nextUrl := u + 1,
           log := c.log + [CreateUrl(u), PlayAudio(u)], pending := AwaitingAudioEnd(u))
      else
        LocalSynthesis(c.(nextUrl := u + 1, log := c.log + [CreateUrl(u), PlayAudio(u), RevokeUrl(u)]), synthesis)
    else LocalSynthesis(c, synthesis)
  }

  function IntendedStep(c: Controller, e: Event): Controller {
    match e
    case GatewayReplied(reply, synthesis) =>
      if c.pending == AwaitingGateway then IntendedRespond(c, reply, synthesis) else c
    case _ => Step(c, e)
  }

  function IntendedRun(c: Controller, es: seq<Event>): Controller
    decreases |es|
  {
    if es == [] then c else IntendedRun(IntendedStep(c, es[0]), es[1..])
  }

  /** The intended page is playing exactly while it waits for something, and
      holds a live URL exactly while audio plays. */
  predicate IntendedInv(c: Controller) {
    && Inv(c)
    && (c.isPlaying <==> c.pending != NoContinuation)
    && c.liveUrls == (if c.pending.AwaitingAudioEnd? then {c.pending.url} else {})
  }

  /** Intended: never stuck playing and no URL outlives its playback, whatever
      the replies and the browser do. */
  lemma {:induction false} IntendedRunSettles(c: Controller, es: seq<Event>)
    requires IntendedInv(c)
    ensures IntendedInv(IntendedRun(c, es))
    decreases |es|
  {
    if es != [] {
      var d := IntendedStep(c, es[0]);
      assert IntendedInv(d);
      IntendedRunSettles(d, es[1..]);
    }
  }

  /** Intended: the gateway's fallback reply is spoken locally. */
  lemma IntendedFallbackReplySpeaks(c: Controller, reply: GatewayReply)
    requires IntendedInv(c) && c.pending == AwaitingGateway
    requires reply.Reply? && !AudioReply(reply)
    ensures IntendedStep(c, GatewayReplied(reply, SpeakStarted)).pending == AwaitingSpeechEnd
    ensures !IntendedStep(IntendedStep(c, GatewayReplied(reply, SpeakStarted)), UtteranceEnded).isPlaying
  {
  }

  /** Intended: a rejected `play()` leaves no live URL once the page is idle again. */
  lemma IntendedPlayRejectedReleasesUrl()
    ensures var c := IntendedRun(Initial("Hazard ahead"),
                         [Click, GatewayReplied(Reply(true, Some("audio/mpeg"), PlayRejected), SpeakStarted), UtteranceEnded]);
      !c.isPlaying && c.liveUrls == {}
  {
    var reply := Reply(true, Some("audio/mpeg"), PlayRejected);
    assert HasAudio(reply.contentType);
    var c0 := Initial("Hazard ahead");
    var c1 := IntendedStep(c0, Click);
    var c2 := IntendedStep(c1, GatewayReplied(reply, SpeakStarted));
    assert c2.liveUrls == {} && c2.pending == AwaitingSpeechEnd;
    var c3 := IntendedStep(c2, UtteranceEnded);
    assert IntendedRun(c2, [UtteranceEnded]) == c3;
    assert IntendedRun(c1, [GatewayReplied(reply, SpeakStarted), UtteranceEnded]) == c3;
  }

  // ---------------------------------------------------------------------------

  /** The page component, with the fields `playTextToSpeech` and its callbacks
      update in place. */
  class PlaybackController {
    const text: string
    var isPlaying: bool
    var pending: Pending
    var liveUrls: set<Url>
    var nextUrl: nat
    var log: seq<Effect>

    function Model(): Controller
      reads this
    {
      Controller(text, isPlaying, pending, liveUrls, nextUrl, log)
    }

    ghost predicate Valid()
      reads this
    {
      Inv(Model())
    }

    /** The page as first rendered: not playing. */
    constructor (text: string)
      ensures Valid() && Model() == Initial(text)
    {
      this.text := text;
      isPlaying := false;
      pending := NoContinuation;
      liveUrls := {};
      nextUrl := 0;
      log := [];
    }

    /** The notification button's `onClick`: `playTextToSpeech` up to the request. */
    method Click()
      requires Valid()
      modifies this
      ensures Valid() && Model() == Step(old(Model()), Event.Click)
      ensures old(isPlaying) ==> unchanged(this)
      ensures !old(isPlaying) ==>
        isPlaying && pending == AwaitingGateway &&
        log == old(log) + [SetPlaying(true), GatewayRequest(GatewayPath, text)]
    {
      if !isPlaying {
        isPlaying := true;
        log := log + [SetPlaying(true)];
        log := log + [GatewayRequest(GatewayPath, text)];
        pending := AwaitingGateway;
      }
    }

    /** The rest of `playTextToSpeech`, resumed with the gateway's reply. */
    method OnGatewayReply(reply: GatewayReply, synthesis: Synthesis)
      requires Valid() && pending == AwaitingGateway
      modifies this
      ensures Valid() && Model() == Step(old(Model()), GatewayReplied(reply, synthesis))
      ensures TryThrows(reply) && synthesis == SpeakStarted ==> pending == AwaitingSpeechEnd
      ensures TryThrows(reply) && synthesis != SpeakStarted ==> !isPlaying
      ensures !TryThrows(reply) ==> isPlaying
    {
      pending := NoContinuation;
      var throws := false;
      if reply.FetchRejected? {
        throws := true;
      } else if reply.ok && HasAudio(reply.contentType) {
        if reply.audio == BlobRejected {
          throws := true;
        } else {
          var u := nextUrl;
          nextUrl := nextUrl + 1;
          liveUrls := liveUrls + {u};
          log := log + [CreateUrl(u), PlayAudio(u)];
          if reply.audio == PlayStarted {
            pending := AwaitingAudioEnd(u);
          } else {
            throws := true;
          }
        }
      }
      if throws {
        CatchBlock(synthesis);
      }
    }

    /** The `catch` block of `playTextToSpeech`. */
    method CatchBlock(synthesis: Synthesis)
      modifies this
      ensures Model() == LocalSynthesis(old(Model()), synthesis)
    {
      if synthesis == SpeakStarted {
        pending := AwaitingSpeechEnd;
        log := log + [Speak(Utterance(text, SpeechRate, SpeechPitch, SpeechVolume))];
      } else {
        isPlaying := false;
        log := log + [SetPlaying(false)];
      }
    }

    /** `audio.onended`: playback finished. */
    method OnAudioEnded()
      requires Valid()
      modifies this
      ensures Valid() && Model() == Step(old(Model()), AudioEnded)
      ensures old(pending).AwaitingAudioEnd? ==>
        !isPlaying && old(pending).url !in liveUrls && log[|log| - 1] == RevokeUrl(old(pending).url)
    {
      if pending.AwaitingAudioEnd? {
        var u := pending.url;
        isPlaying := false;
        pending := NoContinuation;
        liveUrls := liveUrls - {u};
        log := log + [SetPlaying(false), RevokeUrl(u)];
      }
    }

    /** `utterance.onend`: local synthesis finished. */
    method OnUtteranceEnd()
      requires Valid()
      modifies this
      ensures Valid() && Model() == Step(old(Model()), UtteranceEnded)
      ensures old(pending) == AwaitingSpeechEnd ==> !isPlaying && pending == NoContinuation
    {
      if pending == AwaitingSpeechEnd {
        isPlaying := false;
        pending := NoContinuation;
        log := log + [SetPlaying(false)];
      }
    }
  }
}
