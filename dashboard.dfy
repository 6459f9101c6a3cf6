/**
 * The dashboard page of app/dashboard/page.tsx: which photos are the signed-in
 * user's, the fallbacks of the profile header and photo count, and the
 * sequence of calls one load makes.
 *
 * The three service calls (current user, profile, photo list) are inputs:
 * each either returns a value or throws. Whether the page is still mounted is
 * given as the number of awaited calls that return before it unmounts.
 */
module Dashboard {
  import opened Common
  import PhotosClient

  type Photo = PhotosClient.Photo
  type Profile = PhotosClient.Profile

  /** The signed-in user as far as the page reads it. */
  datatype User = User(id: string, email: Option<string>)

  /** The page's state: `user`, `profile`, `myPhotos`, `loading`. */
  datatype DashState = DashState(user: Option<User>, profile: Option<Profile>, myPhotos: seq<Photo>, loading: bool)

  /** A service call the load makes. */
  datatype Call = GetCurrentUser | GetProfile(userId: string) | GetAllPhotos

  datatype Loaded = Loaded(state: DashState, calls: seq<Call>)

  /** What the page renders. */
  datatype Screen = LoadingScreen | SignedOutScreen | ProfileScreen

  const InitialState := DashState(None, None, [], true)
  const DefaultHeading := "My Profile"
  const DefaultInitial := "U"

  // ---------------------------------------------------------------------
  // The ownership filter

  predicate Owns(uid: string, p: Photo) {
    Truthy(p.userId) && p.userId.value == uid
  }

  /** `allPhotos.filter((photo) => photo.userId && photo.userId === currentUser.id)` */
  function Mine(all: seq<Photo>, uid: string): seq<Photo> {
    Filter(all, (p: Photo) => Owns(uid, p))
  }

  /** My photos are exactly the listed photos with a non-empty owner equal to the user's id. */
  lemma MineMembers(all: seq<Photo>, uid: string)
    ensures forall p :: p in Mine(all, uid) <==> p in all && p.userId.Some? && p.userId.value != "" && p.userId.value == uid
    ensures uid == "" ==> Mine(all, uid) == []
  {
    forall p ensures p in Mine(all, uid) <==> p in all && Owns(uid, p) {
      FilterMembership(all, (p: Photo) => Owns(uid, p), p);
    }
    if uid == "" {
      FilterDropsAll(all, (p: Photo) => Owns(uid, p));
    }
  }

  /** My photos keep the order of the full list. */
  lemma MineKeepsOrder(a: seq<Photo>, b: seq<Photo>, uid: string)
    ensures Mine(a + b, uid) == Mine(a, uid) + Mine(b, uid)
  {
    FilterAppend(a, b, (p: Photo) => Owns(uid, p));
  }

  /** A list whose photos carry no owner has no photo of anyone. */
  lemma MineOfUnowned(all: seq<Photo>, uid: string)
    requires forall i :: 0 <= i < |all| ==> all[i].userId.None?
    ensures Mine(all, uid) == []
  {
    FilterDropsAll(all, (p: Photo) => Owns(uid, p));
  }

  // ---------------------------------------------------------------------
  // Header and count fallbacks

  /** `c.toUpperCase()` on the letters a-z; other characters are kept. */
  function UpperAscii(c: char): (u: char)
    ensures 'a' <= c <= 'z' ==> 'A' <= u <= 'Z' && u as int - 'A' as int == c as int - 'a' as int
    ensures !('a' <= c <= 'z') ==> u == c
  {
    if 'a' <= c <= 'z' then (c as int - 'a' as int + 'A' as int) as char else c
  }

  /** `s?.[0]?.toUpperCase()`: the upper-cased first character, absent for a missing or empty string. */
  function Initial(s: Option<string>): (r: Option<string>)
    ensures r.Some? <==> Truthy(s)
    ensures r.Some? ==> r.value == [UpperAscii(s.value[0])]
  {
    if Truthy(s) then Some([UpperAscii(s.value[0])]) else None
  }

  function Username(profile: Option<Profile>): Option<string> {
    if profile.Some? then profile.value.username else None
  }

  /** The avatar letter: from the username, else from the email, else "U". */
  function AvatarInitial(profile: Option<Profile>, email: Option<string>): (r: string)
    ensures |r| == 1
    ensures Truthy(Username(profile)) ==> r == [UpperAscii(Username(profile).value[0])]
    ensures !Truthy(Username(profile)) && Truthy(email) ==> r == [UpperAscii(email.value[0])]
    ensures !Truthy(Username(profile)) && !Truthy(email) ==> r == DefaultInitial
  {
    match Initial(Username(profile))
    case Some(i) => i
    case None => Initial(email).GetOr(DefaultInitial)
  }

  /** The heading: username, else email, else "My Profile"; an empty string falls through. */
  function Heading(profile: Option<Profile>, email: Option<string>): (h: string)
    ensures h != ""
    ensures Truthy(Username(profile)) ==> h == Username(profile).value
    ensures !Truthy(Username(profile)) && Truthy(email) ==> h == email.value
    ensures !Truthy(Username(profile)) && !Truthy(email) ==> h == DefaultHeading
  {
    OrElse(OrElse(Username(profile), email), Some(DefaultHeading)).value
  }

  /** `{n} photo{n === 1 ? "" : "s"}` */
  function CountLabel(n: nat): (text: string)
    ensures StartsWith(text, NatToString(n))
  {
    NatToString(n) + " photo" + (if n == 1 then "" else "s")
  }

  /** The label is singular exactly when there is one photo, and shows the count. */
  lemma CountLabelSingular(m: nat, n: nat)
    ensures CountLabel(n)[|CountLabel(n)| - 1] != 's' <==> n == 1
    ensures CountLabel(m) == CountLabel(n) ==> m == n
  {
    var dm, dn := NatToString(m), NatToString(n);
    if CountLabel(m) == CountLabel(n) {
      // the digits run up to the space before "photo"
      DigitRunOf(dm, " photo" + (if m == 1 then "" else "s"));
      DigitRunOf(dn, " photo" + (if n == 1 then "" else "s"));
      assert CountLabel(m) == dm + (" photo" + (if m == 1 then "" else "s"));
      assert CountLabel(n) == dn + (" photo" + (if n == 1 then "" else "s"));
      assert dm == CountLabel(m)[..|dm|] == CountLabel(n)[..|dn|] == dn;
      NatToStringInjective(m, n);
    }
  }

  /** The number of decimal digits at the start of `s`. */
  function DigitRun(s: string): nat {
    if s != [] && IsDigit(s[0]) then 1 + DigitRun(s[1..]) else 0
  }

  lemma {:induction false} DigitRunOf(digits: string, rest: string)
    requires forall i :: 0 <= i < |digits| ==> IsDigit(digits[i])
    requires rest != [] && !IsDigit(rest[0])
    ensures DigitRun(digits + rest) == |digits|
  {
    if digits != [] {
      assert (digits + rest)[1..] == digits[1..] + rest;
      DigitRunOf(digits[1..], rest);
    } else {
      assert digits + rest == rest;
    }
  }

  // ---------------------------------------------------------------------
  // The load

  /** What the page renders for a state. */
  function ScreenOf(s: DashState): (v: Screen)
    ensures v == LoadingScreen <==> s.loading
    ensures v == ProfileScreen <==> !s.loading && s.user.Some?
  {
    if s.loading then LoadingScreen
    else if s.user.None? then SignedOutScreen
    else ProfileScreen
  }

  /** `finally { if (mounted) setLoading(false); }` after the `awaits`-th awaited call. */
  function Finish(s: DashState, awaits: nat, mountedThrough: nat): DashState {
    if awaits <= mountedThrough then s.(loading := false) else s
  }

  /**
   * One run of `load`. The page is still mounted after the k-th awaited call
   * exactly when `k <= mountedThrough`.
   */
  function Load(userOutcome: Result<Option<User>, ()>, profileOutcome: Result<Option<Profile>, ()>,
                photosOutcome: Result<seq<Photo>, ()>, mountedThrough: nat): (r: Loaded)
    ensures |r.calls| >= 1 && r.calls[0] == GetCurrentUser
    // the profile and the photos are fetched only for a signed-in user, and for that user
    ensures |r.calls| > 1 ==>
      && userOutcome.Ok? && userOutcome.value.Some? && mountedThrough >= 1
      && r.calls[1] == GetProfile(userOutcome.value.value.id)
    ensures |r.calls| > 2 ==> profileOutcome.Ok? && mountedThrough >= 2 && r.calls == [GetCurrentUser, GetProfile(userOutcome.value.value.id), GetAllPhotos]
    ensures |r.calls| <= 3
    // a page that stays mounted always leaves the loading state, whatever fails
    ensures mountedThrough >= 3 ==> !r.state.loading
    ensures mountedThrough == 0 ==> r.state == InitialState
    ensures r.state.user.Some? ==> userOutcome == Ok(r.state.user)
    ensures r.state.myPhotos != [] ==>
      && userOutcome.Ok? && userOutcome.value.Some? && photosOutcome.Ok?
      && r.state.myPhotos == Mine(photosOutcome.value, userOutcome.value.value.id)
    // a mounted page stores the user it got back, and goes on to the profile and the photos for a signed-in one
    ensures mountedThrough >= 1 && userOutcome.Ok? ==> r.state.user == userOutcome.value
    ensures mountedThrough >= 1 && userOutcome.Ok? && userOutcome.value.Some? ==> |r.calls| >= 2
    ensures mountedThrough >= 2 && userOutcome.Ok? && userOutcome.value.Some? && profileOutcome.Ok? ==>
      |r.calls| == 3 && r.state.profile == profileOutcome.value
    ensures mountedThrough >= 3 && userOutcome.Ok? && userOutcome.value.Some? && profileOutcome.Ok? && photosOutcome.Ok? ==>
      && r.state.profile == profileOutcome.value
      && r.state.myPhotos == Mine(photosOutcome.value, userOutcome.value.value.id)
  {
    var calls1 := [GetCurrentUser];
    match userOutcome
    case Err(_) => Loaded(Finish(InitialState, 1, mountedThrough), calls1)
    case Ok(currentUser) =>
      if mountedThrough < 1 then Loaded(InitialState, calls1)
      else
        var s1 := InitialState.(user := currentUser);
        if currentUser.None? then Loaded(Finish(s1, 1, mountedThrough), calls1)
        else
          var calls2 := calls1 + [GetProfile(currentUser.value.id)];
          match profileOutcome
          case Err(_) => Loaded(Finish(s1, 2, mountedThrough), calls2)
          case Ok(p) =>
            if mountedThrough < 2 then Loaded(s1, calls2)
            else
              var s2 := s1.(profile := p);
              var calls3 := calls2 + [GetAllPhotos];
              match photosOutcome
              case Err(_) => Loaded(Finish(s2, 3, mountedThrough), calls3)
              case Ok(allPhotos) =>
                if mountedThrough < 3 then Loaded(s2, calls3)
                else Loaded(Finish(s2.(myPhotos := Mine(allPhotos, currentUser.value.id)), 3, mountedThrough), calls3)
  }
}
