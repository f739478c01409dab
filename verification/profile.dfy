/**
 * The profile menu: the avatar initials derived from the username, the
 * checks a selected photo must pass before upload, and the username and
 * photo update handlers with the messages they show.
 */
module Profile {
  import opened Wrappers
  import opened JsStrings

  /** `words.map(n => n[0]).join("")`: an empty word's `n[0]` is undefined and joins as "". */
  function FirstChars(words: seq<string>): (r: string)
    ensures |r| <= |words|
    decreases |words|
  {
    if words == [] then []
    else (if words[0] == [] then [] else [words[0][0]]) + FirstChars(words[1..])
  }

  /**
   * The first characters of the words of `s`, scanning left to right:
   * a character counts when it is not a space and starts the text or
   * follows a space. `atStart` says whether the scan is at such a place.
   */
  function WordStartsFrom(s: string, atStart: bool): (r: string)
    ensures ' ' !in r
    decreases |s|
  {
    if s == [] then []
    else (if s[0] != ' ' && atStart then [s[0]] else []) + WordStartsFrom(s[1..], s[0] == ' ')
  }

  function WordStarts(s: string): string {
    WordStartsFrom(s, true)
  }

  /** Each first character `FirstChars` takes from the split words is a word start of `s`, in order. */
  lemma {:induction false} FirstCharsAreWordStarts(s: string)
    ensures FirstChars(Split(s, ' ')) == WordStartsFrom(s, true)
    ensures FirstChars(Split(s, ' ')[1..]) == WordStartsFrom(s, false)
    decreases |s|
  {
    if s != [] {
      var rest := Split(s[1..], ' ');
      FirstCharsAreWordStarts(s[1..]);
      if s[0] == ' ' {
        assert Split(s, ' ') == [[]] + rest;
        assert Split(s, ' ')[1..] == rest;
      } else {
        var first := [s[0]] + rest[0];
        assert Split(s, ' ') == [first] + rest[1..];
        assert ([first] + rest[1..])[1..] == rest[1..];
      }
    }
  }

  /** `getInitials`: the upper-cased first characters of the space-separated words, at most two. */
  function Initials(username: string): (r: string)
    ensures |r| <= 2
    ensures var starts := ToUpper(WordStarts(username));
      r == if |starts| <= 2 then starts else starts[..2]
    ensures username == "" ==> r == ""
  {
    var all := ToUpper(FirstChars(Split(username, ' ')));
    FirstCharsAreWordStarts(username);
    if |all| <= 2 then all else all[..2]
  }

  /** Runs of spaces add no initials: doubling a space changes nothing. */
  lemma {:induction false} ExtraSpacesIgnored(a: string, b: string)
    ensures WordStarts(a + " " + b) == WordStarts(a + "  " + b)
  {
    assert a + " " + b == a + (" " + b);
    assert a + "  " + b == a + ("  " + b);
    WordStartsAfterSpace(a, " " + b);
    WordStartsAfterSpace(a, "  " + b);
    var st := if a == [] then true else a[|a| - 1] == ' ';
    assert (" " + b)[0] == ' ' && (" " + b)[1..] == b;
    assert ("  " + b)[0] == ' ' && ("  " + b)[1..] == " " + b;
    assert WordStartsFrom(" " + b, st) == WordStartsFrom(b, true);
    assert WordStartsFrom("  " + b, st) == WordStartsFrom(" " + b, true);
  }

  /** Scanning `a + t` is scanning `a`, then `t` in the state `a` ends in. */
  lemma {:induction false} WordStartsAfterSpace(a: string, t: string)
    ensures WordStartsFrom(a + t, true) ==
      WordStartsFrom(a, true) + WordStartsFrom(t, if a == [] then true else a[|a| - 1] == ' ')
  {
    WordStartsConcat(a, t, true);
  }

  lemma {:induction false} WordStartsConcat(a: string, t: string, atStart: bool)
    ensures WordStartsFrom(a + t, atStart) ==
      WordStartsFrom(a, atStart) + WordStartsFrom(t, if a == [] then atStart else a[|a| - 1] == ' ')
    decreases |a|
  {
    if a == [] {
      assert a + t == t;
    } else {
      assert (a + t)[0] == a[0] && (a + t)[1..] == a[1..] + t;
      WordStartsConcat(a[1..], t, a[0] == ' ');
    }
  }

  // ---------------------------------------------------------------------
  // Photo selection
  // ---------------------------------------------------------------------

  /** A selected file: its MIME type and its size in bytes. */
  datatype File = File(mimeType: string, size: int)

  const MaxPhotoBytes: int := 5 * 1024 * 1024
  const NotAnImage: string := "Please select an image file"
  const TooLarge: string := "File size must be less than 5MB"

  datatype PhotoCheck = NoFile | Rejected(message: string) | Accepted(file: File)

  /**
   * `handlePhotoSelect`'s checks, in order: no file does nothing; a type not
   * starting with "image/" is refused first; then a size over 5 MiB.
   */
  function CheckPhoto(file: Option<File>): (r: PhotoCheck)
    ensures r.NoFile? <==> file.None?
    ensures file.Some? && !StartsWith(file.value.mimeType, "image/") ==> r == Rejected(NotAnImage)
    ensures file.Some? && StartsWith(file.value.mimeType, "image/") && file.value.size > MaxPhotoBytes ==>
      r == Rejected(TooLarge)
    ensures r.Accepted? <==>
      file.Some? && StartsWith(file.value.mimeType, "image/") && file.value.size <= MaxPhotoBytes
    ensures r.Accepted? ==> r.file == file.value
  {
    match file
    case None => NoFile
    case Some(f) =>
      if !StartsWith(f.mimeType, "image/") then Rejected(NotAnImage)
      else if f.size > MaxPhotoBytes then Rejected(TooLarge)
      else Accepted(f)
  }

  /** A file of exactly 5 MiB passes; one byte more does not. */
  lemma SizeBoundary(mimeType: string)
    requires StartsWith(mimeType, "image/")
    ensures CheckPhoto(Some(File(mimeType, 5242880))).Accepted?
    ensures CheckPhoto(Some(File(mimeType, 5242881))) == Rejected(TooLarge)
  {
  }

  /** The server's reply to a request: success, or failure with an optional message. */
  datatype Reply<T> = Done(value: T) | Failed(message: Option<string>)

  /** `err.response?.data?.message || fallback`. */
  function MessageOr(message: Option<string>, fallback: string): (r: string)
    ensures message.Some? && message.value != "" ==> r == message.value
    ensures message.None? || message.value == "" ==> r == fallback
  {
    if message.Some? && message.value != "" then message.value else fallback
  }

  /** The profile menu's state. */
  class ProfileMenu {
    var username: string
    var editingUsername: string
    var isEditing: bool
    var loading: bool
    var uploadingPhoto: bool
    var photoUrl: string
    var photoPreview: string
    var error: string
    var success: string

    constructor ()
      ensures username == "" && editingUsername == "" && !isEditing && !loading && !uploadingPhoto
      ensures photoUrl == "" && photoPreview == "" && error == "" && success == ""
    {
      username, editingUsername := "", "";
      isEditing, loading, uploadingPhoto := false, false, false;
      photoUrl, photoPreview := "", "";
      error, success := "", "";
    }

    /** The avatar text: the initials of the current username. */
    function AvatarText(): (r: string)
      reads this
      ensures r == Initials(username)
      ensures |r| <= 2
    {
      Initials(username)
    }

    /** The Edit button. */
    method StartEditing()
      modifies this`isEditing
      ensures isEditing
    {
      isEditing := true;
    }

    /** The Cancel button: leaves edit mode and resets the input to the current name. */
    method CancelEditing()
      modifies this`isEditing, this`editingUsername
      ensures !isEditing && editingUsername == username
    {
      isEditing := false;
      editingUsername := username;
    }

    /**
     * `handleUpdateUsername` with the server's `reply`. A name that is empty
     * after trimming is refused with "Username cannot be empty" and no request
     * is sent (`sent` is false). Otherwise the request is sent; on success the
     * username becomes the edited value and edit mode ends; on failure the
     * server's message (or a default) is shown.
     */
    method UpdateUsername(reply: Reply<()>) returns (sent: bool)
      modifies this`username, this`isEditing, this`loading, this`error, this`success
      ensures sent <==> Trim(old(editingUsername)) != []
      ensures !sent ==>
        (error == "Username cannot be empty" && username == old(username)
         && isEditing == old(isEditing) && loading == old(loading) && success == old(success))
      ensures sent ==> !loading
      ensures sent && reply.Done? ==>
        username == editingUsername && !isEditing && error == "" && success == "Username updated successfully"
      ensures sent && reply.Failed? ==>
        username == old(username) && isEditing == old(isEditing)
        && error == MessageOr(reply.message, "Failed to update username") && success == ""
    {
      if Trim(editingUsername) == [] {
        error := "Username cannot be empty";
        return false;
      }
      sent := true;
      loading := true;
      error := "";
      success := "";
      match reply {
        case Done(_) =>
          username := editingUsername;
          isEditing := false;
          success := "Username updated successfully";
        case Failed(message) =>
          error := MessageOr(message, "Failed to update username");
      }
      loading := false;
    }

    /**
     * `handlePhotoSelect` followed by `uploadPhoto` with the server's `reply`:
     * a refused file only sets the error; an accepted one is uploaded, and the
     * photo URL changes only on a successful upload.
     */
    method SelectPhoto(file: Option<File>, reply: Reply<string>) returns (uploaded: bool)
      modifies this`photoUrl, this`photoPreview, this`uploadingPhoto, this`error, this`success
      ensures uploaded <==> CheckPhoto(file).Accepted?
      ensures CheckPhoto(file).NoFile? ==>
        error == old(error) && photoUrl == old(photoUrl) && success == old(success)
      ensures CheckPhoto(file).Rejected? ==>
        error == CheckPhoto(file).message && photoUrl == old(photoUrl) && success == old(success)
      ensures !uploaded ==> uploadingPhoto == old(uploadingPhoto) && photoPreview == old(photoPreview)
      ensures uploaded ==> !uploadingPhoto && photoPreview == ""
      ensures uploaded && reply.Done? ==>
        photoUrl == reply.value && error == "" && success == "Photo updated successfully"
      ensures uploaded && reply.Failed? ==>
        photoUrl == old(photoUrl) && error == MessageOr(reply.message, "Failed to upload photo") && success == ""
    {
      var check := CheckPhoto(file);
      match check {
        case NoFile =>
          return false;
        case Rejected(message) =>
          error := message;
          return false;
        case Accepted(_) =>
      }
      uploaded := true;
      uploadingPhoto := true;
      error := "";
      success := "";
      match reply {
        case Done(url) =>
          photoUrl := url;
          photoPreview := "";
          success := "Photo updated successfully";
        case Failed(message) =>
          error := MessageOr(message, "Failed to upload photo");
          photoPreview := "";
      }
      uploadingPhoto := false;
    }
  }
}
