/**
 * The profile editor of components/EditProfileModal.tsx: the trim-or-null
 * normalisation of the submitted fields, the sync of the form fields when the
 * modal opens, and the `saving`/`error` handling of a submit.
 *
 * `String.prototype.trim` removes the ECMAScript WhiteSpace and
 * LineTerminator characters (section 12.2 and 12.3 of ECMA-262) from both
 * ends. The update call's outcome is an input.
 */
module ProfileEditor {
  import opened Common
  import PhotosClient

  type Profile = PhotosClient.Profile

  /** The object passed to `profilesAPI.updateMyProfile`. */
  datatype ProfileUpdate = ProfileUpdate(username: Option<string>, fullName: Option<string>, bio: Option<string>)

  /** What the modal tells its parent: `onSaved(profile)` and `onClose()`. */
  datatype Event = Saved(profile: Profile) | Closed

  const SaveFallback := "Failed to update profile"

  // ---------------------------------------------------------------------
  // String.prototype.trim

  /** ECMAScript WhiteSpace and LineTerminator code points. */
  predicate IsSpace(c: char) {
    || ('\U{9}' <= c <= '\U{D}')
    || c == '\U{20}' || c == '\U{A0}' || c == '\U{1680}'
    || ('\U{2000}' <= c <= '\U{200A}')
    || c == '\U{2028}' || c == '\U{2029}' || c == '\U{202F}' || c == '\U{205F}' || c == '\U{3000}'
    || c == '\U{FEFF}'
  }

  predicate AllSpace(s: string) {
    forall i :: 0 <= i < |s| ==> IsSpace(s[i])
  }

  /** Drops the leading white space. */
  function TrimStart(s: string): (r: string)
    ensures |r| <= |s| && r == s[|s| - |r|..]
  {
    if s != [] && IsSpace(s[0]) then
      var r := TrimStart(s[1..]);
      assert s[1..][|s[1..]| - |r|..] == s[|s| - |r|..];
      r
    else s
  }

  /** What TrimStart cuts off is all white space. */
  lemma {:induction false} TrimStartCut(s: string)
    ensures AllSpace(s[..|s| - |TrimStart(s)|])
  {
    if s != [] && IsSpace(s[0]) {
      var t := s[1..];
      TrimStartCut(t);
      var k := |s| - |TrimStart(s)|;
      assert TrimStart(s) == TrimStart(t);
      assert s[..k] == [s[0]] + t[..k - 1];
      AllSpaceCons(s[0], t[..k - 1]);
    }
  }

  /** What TrimStart keeps does not start with white space. */
  lemma {:induction false} TrimStartHead(s: string)
    ensures TrimStart(s) == [] || !IsSpace(TrimStart(s)[0])
  {
    if s != [] && IsSpace(s[0]) {
      TrimStartHead(s[1..]);
    }
  }

  lemma AllSpaceCons(c: char, t: string)
    requires IsSpace(c) && AllSpace(t)
    ensures AllSpace([c] + t)
  {
    forall i | 0 <= i < |[c] + t|
      ensures IsSpace(([c] + t)[i])
    {
      if i > 0 {
        assert ([c] + t)[i] == t[i - 1];
      }
    }
  }

  /** Drops the trailing white space. */
  function TrimEnd(s: string): (r: string)
    ensures |r| <= |s| && r == s[..|r|]
  {
    if s != [] && IsSpace(s[|s| - 1]) then
      var r := TrimEnd(s[..|s| - 1]);
      assert s[..|s| - 1][..|r|] == s[..|r|];
      r
    else s
  }

  /** What TrimEnd cuts off is all white space. */
  lemma {:induction false} TrimEndCut(s: string)
    ensures AllSpace(s[|TrimEnd(s)|..])
  {
    if s != [] && IsSpace(s[|s| - 1]) {
      var p := s[..|s| - 1];
      TrimEndCut(p);
      var r := TrimEnd(p);
      assert TrimEnd(s) == r;
      assert s[|r|..] == p[|r|..] + [s[|s| - 1]];
      AllSpaceSnoc(p[|r|..], s[|s| - 1]);
    } else {
      assert s[|s|..] == [];
    }
  }

  /** What TrimEnd keeps does not end with white space. */
  lemma {:induction false} TrimEndLast(s: string)
    ensures TrimEnd(s) == [] || !IsSpace(TrimEnd(s)[|TrimEnd(s)| - 1])
  {
    if s != [] && IsSpace(s[|s| - 1]) {
      TrimEndLast(s[..|s| - 1]);
    }
  }

  lemma AllSpaceSnoc(t: string, c: char)
    requires AllSpace(t) && IsSpace(c)
    ensures AllSpace(t + [c])
  {
    forall i | 0 <= i < |t + [c]|
      ensures IsSpace((t + [c])[i])
    {
      if i < |t| {
        assert (t + [c])[i] == t[i];
      }
    }
  }

  /** `s.trim()` */
  function Trim(s: string): string {
    TrimEnd(TrimStart(s))
  }

  /** The trimmed string is a slice of the input with only white space cut off either end. */
  lemma TrimIsSlice(s: string)
    ensures exists i, j :: 0 <= i <= j <= |s| && Trim(s) == s[i..j] && AllSpace(s[..i]) && AllSpace(s[j..])
  {
    var t := TrimStart(s);
    TrimStartCut(s);
    var i := |s| - |t|;
    var r := TrimEnd(t);
    TrimEndCut(t);
    var j := i + |r|;
    assert r == t[..|r|] == s[i..j];
    assert s[j..] == t[|r|..];
    assert Trim(s) == s[i..j] && AllSpace(s[..i]) && AllSpace(s[j..]);
  }

  /** The trimmed string has no white space at either end. */
  lemma TrimEdges(s: string)
    ensures Trim(s) != [] ==> !IsSpace(Trim(s)[0]) && !IsSpace(Trim(s)[|Trim(s)| - 1])
  {
    var t := TrimStart(s);
    TrimStartHead(s);
    TrimEndLast(t);
    var r := TrimEnd(t);
    if r != [] {
      assert r[0] == t[0];
    }
  }

  /** A string without white space at either end trims to itself. */
  lemma TrimOfTrimmed(r: string)
    requires r == [] || (!IsSpace(r[0]) && !IsSpace(r[|r| - 1]))
    ensures Trim(r) == r
  {
    assert TrimStart(r) == r;
    assert TrimEnd(r) == r;
  }

  /** Trimming twice is trimming once. */
  lemma TrimIdempotent(s: string)
    ensures Trim(Trim(s)) == Trim(s)
  {
    TrimEdges(s);
    TrimOfTrimmed(Trim(s));
  }

  /** Trimming leaves nothing exactly when the input is all white space. */
  lemma {:induction false} TrimEmpty(s: string)
    ensures Trim(s) == [] <==> AllSpace(s)
  {
    var t := TrimStart(s);
    TrimStartCut(s);
    TrimStartHead(s);
    if AllSpace(s) {
      AllSpaceTrimStart(s);
    }
    if t == [] {
      assert s[..|s|] == s;
    } else {
      // the first character kept by TrimStart is not white space, so TrimEnd stops before it
      TrimEndKeepsHead(t);
    }
  }

  /** TrimEnd keeps a first character that is not white space. */
  lemma {:induction false} TrimEndKeepsHead(t: string)
    requires t != [] && !IsSpace(t[0])
    ensures TrimEnd(t) != []
  {
    if IsSpace(t[|t| - 1]) {
      // the last character is not the first, so something is left before it
      var p := t[..|t| - 1];
      assert p[0] == t[0];
      TrimEndKeepsHead(p);
    }
  }

  lemma {:induction false} AllSpaceTrimStart(s: string)
    requires AllSpace(s)
    ensures TrimStart(s) == []
  {
    if s != [] {
      AllSpaceTrimStart(s[1..]);
    }
  }

  /** `s.trim() || null` */
  function NormalizeField(s: string): (r: Option<string>)
    ensures r.None? <==> Trim(s) == ""
    ensures r.Some? ==> r.value == Trim(s)
  {
    var t := Trim(s);
    if t == "" then None else Some(t)
  }

  /** A field is submitted as null exactly when it is all white space, and otherwise without edge white space. */
  lemma NormalizeFieldSpec(s: string)
    ensures NormalizeField(s).None? <==> AllSpace(s)
    ensures NormalizeField(s).Some? ==>
      var v := NormalizeField(s).value;
      v != "" && !IsSpace(v[0]) && !IsSpace(v[|v| - 1]) && Trim(v) == v
  {
    TrimEmpty(s);
    TrimEdges(s);
    TrimIdempotent(s);
  }

  /** The update sent for the current form fields. */
  function UpdateOf(username: string, fullName: string, bio: string): ProfileUpdate {
    ProfileUpdate(NormalizeField(username), NormalizeField(fullName), NormalizeField(bio))
  }

  /** `x ?? ""` on a profile field. */
  function FieldOrEmpty(profile: Option<Profile>, field: Profile -> Option<string>): (r: string)
    ensures profile.Some? && field(profile.value).Some? ==> r == field(profile.value).value
    ensures profile.None? || field(profile.value).None? ==> r == ""
  {
    if profile.Some? then field(profile.value).GetOr("") else ""
  }

  // ---------------------------------------------------------------------
  // The modal

  class EditProfileModal {
    var open: bool
    var initialProfile: Option<Profile>
    var username: string
    var fullName: string
    var bio: string
    var saving: bool
    var error: Option<string>
    var events: seq<Event>

    constructor (open: bool, initialProfile: Option<Profile>)
      ensures this.open == open && this.initialProfile == initialProfile
      ensures !saving && events == []
      ensures open ==>
        && error.None? && username == FieldOrEmpty(initialProfile, (p: Profile) => p.username)
        && fullName == FieldOrEmpty(initialProfile, (p: Profile) => p.fullName)
        && bio == FieldOrEmpty(initialProfile, (p: Profile) => p.bio)
      ensures !open ==> error.None? && username == "" && fullName == "" && bio == ""
    {
      this.open := open;
      this.initialProfile := initialProfile;
      saving := false;
      error := None;
      events := [];
      username := FieldOrEmpty(initialProfile, (p: Profile) => p.username);
      fullName := FieldOrEmpty(initialProfile, (p: Profile) => p.fullName);
      bio := FieldOrEmpty(initialProfile, (p: Profile) => p.bio);
      if !open {
        username, fullName, bio := "", "", "";
      }
    }

    /** A closed modal renders nothing, so nothing in it can be used. */
    predicate Renders()
      reads this
    {
      open
    }

    /** New props; the sync effect runs when `open` or `initialProfile` changed, and only syncs while open. */
    method SetProps(newOpen: bool, newProfile: Option<Profile>)
      modifies this`open, this`initialProfile, this`username, this`fullName, this`bio, this`error
      ensures open == newOpen && initialProfile == newProfile
      ensures newOpen && (newOpen != old(open) || newProfile != old(initialProfile)) ==>
        && error.None?
        && username == FieldOrEmpty(newProfile, (p: Profile) => p.username)
        && fullName == FieldOrEmpty(newProfile, (p: Profile) => p.fullName)
        && bio == FieldOrEmpty(newProfile, (p: Profile) => p.bio)
      ensures !(newOpen && (newOpen != old(open) || newProfile != old(initialProfile))) ==>
        username == old(username) && fullName == old(fullName) && bio == old(bio) && error == old(error)
    {
      var changed := newOpen != open || newProfile != initialProfile;
      open := newOpen;
      initialProfile := newProfile;
      if !changed || !open {
        return;
      }
      error := None;
      username := FieldOrEmpty(initialProfile, (p: Profile) => p.username);
      fullName := FieldOrEmpty(initialProfile, (p: Profile) => p.fullName);
      bio := FieldOrEmpty(initialProfile, (p: Profile) => p.bio);
    }

    method EditUsername(value: string)
      modifies this`username
      ensures username == value
    {
      username := value;
    }

    method EditFullName(value: string)
      modifies this`fullName
      ensures fullName == value
    {
      fullName := value;
    }

    method EditBio(value: string)
      modifies this`bio
      ensures bio == value
    {
      bio := value;
    }

    /** The start of `handleSubmit`: the update it sends, none while the modal is closed. */
    method BeginSubmit() returns (sent: Option<ProfileUpdate>)
      modifies this`saving, this`error
      ensures !Renders() ==> sent.None? && saving == old(saving) && error == old(error)
      ensures Renders() ==> sent == Some(UpdateOf(username, fullName, bio)) && saving && error.None?
    {
      if !Renders() {
        return None;
      }
      saving := true;
      error := None;
      sent := Some(UpdateOf(username, fullName, bio));
    }

    /** The end of `handleSubmit`, given what the update returned or the `message` of what it threw. */
    method FinishSubmit(outcome: Result<Profile, Option<string>>)
      modifies this`saving, this`error, this`events
      ensures !saving
      ensures outcome.Ok? ==> events == old(events) + [Saved(outcome.value), Closed] && error == old(error)
      ensures outcome.Err? ==> events == old(events) && error == Some(outcome.error.GetOr(SaveFallback))
    {
      match outcome {
        case Ok(updated) =>
          events := events + [Saved(updated), Closed];
        case Err(message) =>
          error := Some(message.GetOr(SaveFallback));
      }
      saving := false;
    }
  }
}
