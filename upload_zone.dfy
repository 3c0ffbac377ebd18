/** The photo drop zone: the MIME check every chosen or dropped file passes
    through, and the drag highlight flag. */
module UploadZone {
  import opened Wrappers
  import opened Strings
  import opened Types

  /** `file.type.match('image.*')`: the pattern matches somewhere in the type
      exactly when "image" occurs in it, since `.*` also matches nothing. */
  predicate IsImageType(mime: string)
  {
    Contains(mime, "image")
  }

  /** `validateAndProcess(file)`: the file handed to `onFileSelect`, or
      nothing when the type is rejected. */
  function ValidateAndProcess(file: File): (forwarded: Option<File>)
    ensures forwarded.Some? <==> exists i :: OccursAt(file.mimeType, "image", i)
    ensures forwarded.Some? ==> forwarded.value == file
  {
    if IsImageType(file.mimeType) then Some(file) else None
  }

  /** Usual image types pass the check; a type without "image" does not. */
  lemma ImageTypeExamples()
    ensures ValidateAndProcess(File(0, "image/jpeg")) == Some(File(0, "image/jpeg"))
    ensures ValidateAndProcess(File(0, "text/csv")).None?
  {
    assert OccursAt("image/jpeg", "image", 0);
    forall i ensures !OccursAt("text/csv", "image", i) {
      if 0 <= i <= 3 {
        assert "text/csv"[i..i + 5][0] == "text/csv"[i];
        assert "text/csv"[i] in "text";
      }
    }
  }

  /** The component: the one piece of its own state is the drag highlight. */
  class UploadZone {
    var isDragging: bool

    constructor ()
      ensures !isDragging
    {
      isDragging := false;
    }

    /** `handleDragOver` */
    method DragOver()
      modifies this
      ensures isDragging
    {
      isDragging := true;
    }

    /** `handleDragLeave` */
    method DragLeave()
      modifies this
      ensures !isDragging
    {
      isDragging := false;
    }

    /** `handleDrop`: clears the highlight, then validates the first dropped
        file; `forwarded` is what reaches `onFileSelect`. */
    method Drop(files: Option<seq<File>>) returns (forwarded: Option<File>)
      modifies this
      ensures !isDragging
      ensures forwarded.Some? <==> FirstFile(files).Some? && IsImageType(FirstFile(files).value.mimeType)
      ensures forwarded.Some? ==> forwarded.value == files.value[0]
    {
      isDragging := false;
      forwarded := None;
      var first := FirstFile(files);
      if first.Some? {
        forwarded := ValidateAndProcess(first.value);
      }
    }

    /** `handleChange`: validates the first chosen file; the highlight is
        left as it was. */
    method Change(files: Option<seq<File>>) returns (forwarded: Option<File>)
      modifies this
      ensures isDragging == old(isDragging)
      ensures forwarded.Some? <==> FirstFile(files).Some? && IsImageType(FirstFile(files).value.mimeType)
      ensures forwarded.Some? ==> forwarded.value == files.value[0]
    {
      forwarded := None;
      var first := FirstFile(files);
      if first.Some? {
        forwarded := ValidateAndProcess(first.value);
      }
    }
  }
}
