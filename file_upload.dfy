/** The image upload component: the pure size and type check of
    `validateFile`, and the component's state (`file`, `error`, `isDragOver`,
    `preview`, the hidden input's value) as its handlers update it. */
module FileUpload {
  import opened Wrappers

  /** A browser `File`: its name, its size in bytes and its MIME type. */
  datatype File = File(name: string, size: nat, mimeType: string)

  const MaxFileSize: nat := 5 * 1024 * 1024
  const AllowedTypes: seq<string> := ["image/jpeg", "image/jpg", "image/png", "image/gif", "image/bmp"]
  const SizeError := "File size exceeds 5MB limit."
  const TypeError := "Please upload a valid image file (JPG, PNG, GIF, BMP)."

  /** The error message `validateFile` sets for a file, or `None` when it
      accepts the file. The size is checked first. */
  function Validate(f: File): (r: Option<string>)
    ensures r.None? <==> f.size <= MaxFileSize && f.mimeType in AllowedTypes
    ensures f.size > MaxFileSize ==> r == Some(SizeError)
    ensures f.size <= MaxFileSize && f.mimeType !in AllowedTypes ==> r == Some(TypeError)
  {
    if f.size > MaxFileSize then Some(SizeError)
    else if f.mimeType !in AllowedTypes then Some(TypeError)
    else None
  }

  /** The limit is inclusive: exactly 5 MiB passes, one byte more does not. */
  lemma SizeLimitInclusive(name: string, mimeType: string)
    requires mimeType in AllowedTypes
    ensures Validate(File(name, 5242880, mimeType)) == None
    ensures Validate(File(name, 5242881, mimeType)) == Some(SizeError)
  {
  }

  /** An oversized file of a bad type is reported for its size. */
  lemma SizeCheckedBeforeType(f: File)
    requires f.size > MaxFileSize && f.mimeType !in AllowedTypes
    ensures Validate(f) == Some(SizeError)
  {
  }

  /** The five accepted types, and nothing else: `image/webp` and the empty
      type a browser gives an unknown file are refused. */
  lemma AcceptedTypes(f: File)
    requires f.size <= MaxFileSize
    ensures Validate(f).None? <==>
      f.mimeType in {"image/jpeg", "image/jpg", "image/png", "image/gif", "image/bmp"}
    ensures Validate(File(f.name, f.size, "image/webp")) == Some(TypeError)
    ensures Validate(File(f.name, f.size, "")) == Some(TypeError)
  {
  }

  /** The `FileUpload` component. `hasCallback` says whether the parent passed
      `onFileSelect`; `selected` lists the files it was called with, in order;
      `readsPending` counts the `FileReader` reads started and not yet loaded. */
  class Uploader {
    const hasCallback: bool
    var file: Option<File>
    var error: Option<string>
    var isDragOver: bool
    var preview: Option<string>
    var inputValue: string
    var selected: seq<File>
    var readsPending: nat

    /** Only a file that passed validation is ever kept, the error shown is
        one of the two messages, and the parent heard of the kept file last. */
    ghost predicate Valid()
      reads this
    {
      && (file.Some? ==> Validate(file.value).None?)
      && (error.Some? ==> error.value == SizeError || error.value == TypeError)
      && (!hasCallback ==> selected == [])
      && (hasCallback && file.Some? ==> |selected| > 0 && selected[|selected| - 1] == file.value)
      && (forall i :: 0 <= i < |selected| ==> Validate(selected[i]).None?)
    }

    constructor (hasCallback: bool)
      ensures Valid() && this.hasCallback == hasCallback
      ensures file == None && error == None && !isDragOver && preview == None
      ensures inputValue == "" && selected == [] && readsPending == 0
    {
      this.hasCallback := hasCallback;
      file := None;
      error := None;
      isDragOver := false;
      preview := None;
      inputValue := "";
      selected := [];
      readsPending := 0;
    }

    /** `validateFile`: sets `error` to the file's message, or clears it. */
    method ValidateFile(f: File) returns (ok: bool)
      requires Valid()
      modifies this`error
      ensures Valid()
      ensures ok <==> Validate(f).None?
      ensures error == Validate(f)
    {
      if f.size > MaxFileSize {
        error := Some(SizeError);
        return false;
      }
      if f.mimeType !in AllowedTypes {
        error := Some(TypeError);
        return false;
      }
      error := None;
      return true;
    }

    /** What `handleFileSelect(f)` leaves behind: a refused file changes only
        `error` (the file, the preview and the parent's calls stay as they
        were); an accepted file clears the error, is kept, is reported once to
        the parent when there is one, and its preview read is started. */
    twostate predicate Selected(f: File)
      reads this
    {
      && error == Validate(f)
      && (Validate(f).Some? ==>
            file == old(file) && selected == old(selected) && readsPending == old(readsPending))
      && (Validate(f).None? ==>
            && file == Some(f)
            && selected == old(selected) + (if hasCallback then [f] else [])
            && readsPending == old(readsPending) + 1)
    }

    method HandleFileSelect(f: File)
      requires Valid()
      modifies this`file, this`error, this`selected, this`readsPending
      ensures Valid() && Selected(f)
    {
      var ok := ValidateFile(f);
      if ok {
        file := Some(f);
        if hasCallback {
          selected := selected + [f];
        }
        readsPending := readsPending + 1;
      }
    }

    /** `handleFileChange`: the input's `files` (`None` for a null list), of
        which only the first is used. The browser has already set the input's
        value to `value`. */
    method HandleFileChange(files: Option<seq<File>>, value: string)
      requires Valid()
      modifies this`file, this`error, this`selected, this`readsPending, this`inputValue
      ensures Valid() && inputValue == value
      ensures files.Some? && |files.value| > 0 ==> Selected(files.value[0])
      ensures !(files.Some? && |files.value| > 0) ==>
        file == old(file) && error == old(error) && selected == old(selected) && readsPending == old(readsPending)
    {
      inputValue := value;
      if files.Some? && |files.value| > 0 {
        HandleFileSelect(files.value[0]);
      }
    }

    method HandleDragOver()
      modifies this`isDragOver
      ensures isDragOver
    {
      isDragOver := true;
    }

    method HandleDragLeave()
      modifies this`isDragOver
      ensures !isDragOver
    {
      isDragOver := false;
    }

    /** `handleDrop`: always ends the drag highlight, then selects the first
        dropped file if there is one. */
    method HandleDrop(files: seq<File>)
      requires Valid()
      modifies this`isDragOver, this`file, this`error, this`selected, this`readsPending
      ensures Valid() && !isDragOver
      ensures |files| > 0 ==> Selected(files[0])
      ensures |files| == 0 ==>
        file == old(file) && error == old(error) && selected == old(selected) && readsPending == old(readsPending)
    {
      isDragOver := false;
      if |files| > 0 {
        HandleFileSelect(files[0]);
      }
    }

    /** The `FileReader`'s `onload`: one started read delivers its data URL,
        which becomes the preview whatever the component holds by then. */
    method PreviewLoaded(dataUrl: string)
      requires Valid() && readsPending > 0
      modifies this`preview, this`readsPending
      ensures Valid() && preview == Some(dataUrl) && readsPending == old(readsPending) - 1
    {
      preview := Some(dataUrl);
      readsPending := readsPending - 1;
    }

    /** `clearFile`: forget the file, its preview and the error, and empty the input. */
    method ClearFile()
      requires Valid()
      modifies this`file, this`preview, this`error, this`inputValue
      ensures Valid()
      ensures file == None && preview == None && error == None && inputValue == ""
    {
      file := None;
      preview := None;
      error := None;
      inputValue := "";
    }
  }
}
