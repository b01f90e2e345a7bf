/** The profile dialog: the interest toggle, the avatar size limit, the storage paths
    derived for an avatar upload, the record written on save and the dialog's state. */
module ProfileDialog {
  import opened Common

  /** The largest accepted avatar, in bytes (2 MB). */
  const MaxAvatarBytes: nat := 2 * 1024 * 1024

  /** The placeholder for an unanswered age group or gender. */
  const Unanswered: string := "未回答"

  const NoUserIdError: string := "ユーザーIDが見つかりません。"
  const NoUsernameError: string := "ユーザー名は必須です。"
  const AvatarTooLargeError: string := "画像サイズは2MB以下にしてください。"
  const LoadFailedError: string := "プロフィールの読み込みに失敗しました。"
  const SaveFailedError: string := "プロフィールの保存に失敗しました。もう一度お試しください。"

  /** A profile as the dialog edits it (`Partial<Profile>`): every field may be missing or
      `null`, both written `None`. */
  datatype Profile = Profile(
    id: Option<string>,
    username: Option<string>,
    ageGroup: Option<string>,
    gender: Option<string>,
    occupation: Option<string>,
    interests: Option<seq<string>>,
    bio: Option<string>,
    avatarUrl: Option<string>)

  /** The profile the dialog starts from and falls back to. */
  const InitialProfile: Profile :=
    Profile(None, Some(""), Some(Unanswered), Some(Unanswered), None, Some([]), None, None)

  /** The row written to the `profiles` table on save. */
  datatype ProfileRecord = ProfileRecord(
    id: string,
    username: string,
    ageGroup: string,
    gender: string,
    occupation: string,
    interests: seq<string>,
    bio: string,
    avatarUrl: Option<string>)

  /** A file picked in the browser: its name and its size in bytes. */
  datatype File = File(name: string, size: nat)

  // ---------------------------------------------------------------------------------------
  // Interests
  // ---------------------------------------------------------------------------------------

  /** `xs.filter((i) => i !== x)` */
  function Without(xs: seq<string>, x: string): (r: seq<string>)
    ensures x !in r
    ensures forall y :: y in r <==> y in xs && y != x
    ensures |r| <= |xs|
  {
    if xs == [] then []
    else (if xs[0] == x then [] else [xs[0]]) + Without(xs[1..], x)
  }

  lemma {:induction false} WithoutAbsent(xs: seq<string>, x: string)
    requires x !in xs
    ensures Without(xs, x) == xs
  {
    if xs != [] {
      WithoutAbsent(xs[1..], x);
    }
  }

  lemma {:induction false} WithoutConcat(xs: seq<string>, ys: seq<string>, x: string)
    ensures Without(xs + ys, x) == Without(xs, x) + Without(ys, x)
  {
    if xs == [] {
      assert xs + ys == ys;
    } else {
      var h := if xs[0] == x then [] else [xs[0]];
      assert (xs + ys)[0] == xs[0] && (xs + ys)[1..] == xs[1..] + ys;
      assert Without(xs + ys, x) == h + Without(xs[1..] + ys, x);
      WithoutConcat(xs[1..], ys, x);
      assert Without(xs, x) == h + Without(xs[1..], x);
    }
  }

  /** The interests of a profile, `profile.interests || []`. */
  function InterestsOf(p: Profile): seq<string> {
    if p.interests.Some? then p.interests.value else []
  }

  /** `handleInterestToggle`'s new list: drop every occurrence of a present interest,
      append an absent one. */
  function ToggleInterest(xs: seq<string>, x: string): (r: seq<string>)
    ensures x in r <==> x !in xs
    ensures forall y :: y != x ==> (y in r <==> y in xs)
  {
    if x in xs then Without(xs, x) else xs + [x]
  }

  /** Toggling keeps every other interest, with its multiplicity and in its relative order. */
  lemma ToggleKeepsOthers(xs: seq<string>, x: string)
    ensures Without(ToggleInterest(xs, x), x) == Without(xs, x)
  {
    if x in xs {
      WithoutAbsent(Without(xs, x), x);
    } else {
      WithoutConcat(xs, [x], x);
      assert Without([x], x) == [];
    }
  }

  /** An absent interest toggled on lands at the end, and every present one is removed. */
  lemma ToggleAppendsOrRemoves(xs: seq<string>, x: string)
    ensures x !in xs ==> ToggleInterest(xs, x) == xs + [x]
    ensures x in xs ==> multiset(ToggleInterest(xs, x))[x] == 0
  {
  }

  /** Toggling an absent interest twice restores the list. */
  lemma ToggleTwiceRestores(xs: seq<string>, x: string)
    requires x !in xs
    ensures ToggleInterest(ToggleInterest(xs, x), x) == xs
  {
    WithoutConcat(xs, [x], x);
    assert Without([x], x) == [];
    WithoutAbsent(xs, x);
  }

  /** Toggling a present interest twice gathers all its occurrences into one at the end. */
  lemma ToggleTwicePresent(xs: seq<string>, x: string)
    requires x in xs
    ensures ToggleInterest(ToggleInterest(xs, x), x) == Without(xs, x) + [x]
  {
  }

  // ---------------------------------------------------------------------------------------
  // Avatar upload paths
  // ---------------------------------------------------------------------------------------

  /** `s.split(sep).pop()`: the text after the last `sep`, or all of `s` without one. */
  function LastSegment(s: string, sep: char): (r: string)
    ensures sep !in r
    ensures |r| <= |s| && r == s[|s| - |r|..]
    ensures |r| == |s| || s[|s| - |r| - 1] == sep
  {
    if s == [] then []
    else if s[|s| - 1] == sep then []
    else LastSegment(s[..|s| - 1], sep) + [s[|s| - 1]]
  }

  /** A string without the separator is its own last segment. */
  lemma {:induction false} LastSegmentWhole(s: string, sep: char)
    requires sep !in s
    ensures LastSegment(s, sep) == s
  {
    if s != [] {
      assert sep !in s[..|s| - 1];
      LastSegmentWhole(s[..|s| - 1], sep);
    }
  }

  /** Joining with the separator and taking the last segment gives back the tail. */
  lemma {:induction false} LastSegmentJoin(a: string, sep: char, b: string)
    requires sep !in b
    ensures LastSegment(a + [sep] + b, sep) == b
  {
    var s := a + [sep] + b;
    if b == [] {
      assert s[|s| - 1] == sep;
    } else {
      assert s[..|s| - 1] == a + [sep] + b[..|b| - 1];
      assert sep !in b[..|b| - 1];
      LastSegmentJoin(a, sep, b[..|b| - 1]);
      assert b == b[..|b| - 1] + [b[|b| - 1]];
    }
  }

  /** The file extension, `name.split('.').pop()`. */
  function Extension(name: string): string {
    LastSegment(name, '.')
  }

  /** The storage path of a user's avatar, `${userId}/avatar.${fileExt}`. */
  function AvatarPath(userId: string, name: string): (path: string)
    ensures path == userId + "/avatar." + LastSegment(name, '.')
  {
    userId + "/avatar." + Extension(name)
  }

  /** The extension is the tail of the name after its last dot, or the whole name. */
  lemma ExtensionOfName(name: string, stem: string, ext: string)
    requires '.' !in ext
    ensures Extension(stem + "." + ext) == ext
    ensures '.' !in name ==> Extension(name) == name
  {
    LastSegmentJoin(stem, '.', ext);
    if '.' !in name {
      LastSegmentWhole(name, '.');
    }
  }

  /** The old file removed before an upload: the last `/`-segment of the old avatar URL,
      when the URL is set and that segment is not empty. */
  function OldFilePath(avatarUrl: Option<string>): (r: Option<string>)
    ensures r.Some? ==> r.value != "" && '/' !in r.value
    ensures r.Some? <==> Truthy(avatarUrl) && LastSegment(avatarUrl.value, '/') != ""
  {
    if Truthy(avatarUrl) && LastSegment(avatarUrl.value, '/') != "" then
      Some(LastSegment(avatarUrl.value, '/'))
    else None
  }

  /** For an avatar URL ending in a path made by AvatarPath, the old file removed is only
      `avatar.<ext>`: the user's folder is not part of it. */
  lemma OldFileOfAvatarUrl(base: string, userId: string, name: string)
    requires '/' !in name
    ensures OldFilePath(Some(base + "/" + AvatarPath(userId, name)))
            == Some("avatar." + Extension(name))
  {
    var ext := Extension(name);
    ExtensionHasNoSlash(name);
    UrlEndsWithFile(base, userId, ext);
    LastSegmentJoin(base + "/" + userId, '/', "avatar." + ext);
  }

  lemma ExtensionHasNoSlash(name: string)
    requires '/' !in name
    ensures '/' !in "avatar." + Extension(name)
  {
    var ext := Extension(name);
    assert ext == name[|name| - |ext|..];
    assert forall i :: 0 <= i < |ext| ==> ext[i] == name[|name| - |ext| + i];
  }

  lemma UrlEndsWithFile(base: string, userId: string, ext: string)
    ensures base + "/" + (userId + "/avatar." + ext) == (base + "/" + userId) + ['/'] + ("avatar." + ext)
  {
    assert "/avatar." == ['/'] + "avatar.";
  }

  /** What `uploadAvatar` does: which old file it removes, where it stores the new one and
      what it returns. `uploaded` is the storage service's answer for the upload: the public
      URL of the stored file, or the error it throws. */
  datatype UploadOutcome = UploadOutcome(
    removed: Option<string>,
    stored: Option<string>,
    result: Result<Option<string>, string>)

  function UploadAvatar(avatarFile: Option<File>, userId: string, oldUrl: Option<string>,
                        uploaded: Result<string, string>): (u: UploadOutcome)
    ensures u.stored.Some? <==> avatarFile.Some? && userId != ""
    ensures u.stored.None? ==> u == UploadOutcome(None, None, Ok(None))
    ensures u.stored.Some? ==> && u.stored.value == AvatarPath(userId, avatarFile.value.name)
                               && u.removed == OldFilePath(oldUrl)
                               && (u.result.Ok? <==> uploaded.Ok?)
                               && (uploaded.Ok? ==> u.result.value == Some(uploaded.value))
  {
    if avatarFile.None? || userId == "" then UploadOutcome(None, None, Ok(None))
    else
      var r := match uploaded
        case Ok(url) => Ok(Some(url))
        case Err(e) => Err(e);
      UploadOutcome(OldFilePath(oldUrl), Some(AvatarPath(userId, avatarFile.value.name)), r)
  }

  // ---------------------------------------------------------------------------------------
  // Saving
  // ---------------------------------------------------------------------------------------

  /** `profileData`: the row written on save, with the form's defaults filled in. */
  function SaveRecord(userId: string, username: string, p: Profile, avatarUrl: Option<string>): (r: ProfileRecord)
    ensures r.id == userId && r.username == username && r.avatarUrl == avatarUrl
    ensures r.ageGroup != "" && r.gender != ""
    ensures r.ageGroup == (if Truthy(p.ageGroup) then p.ageGroup.value else Unanswered)
    ensures r.gender == (if Truthy(p.gender) then p.gender.value else Unanswered)
    ensures r.occupation == (if Truthy(p.occupation) then p.occupation.value else "")
    ensures r.bio == (if Truthy(p.bio) then p.bio.value else "")
    ensures r.interests == InterestsOf(p)
  {
    ProfileRecord(userId, username, OrElse(p.ageGroup, Unanswered), OrElse(p.gender, Unanswered),
                  OrElse(p.occupation, ""), InterestsOf(p), OrElse(p.bio, ""), avatarUrl)
  }

  /** The validation `handleSave` does before any write: the user id is checked first,
      then the username. */
  function SaveError(userId: string, p: Profile): (e: Option<string>)
    ensures e.None? <==> userId != "" && Truthy(p.username)
    ensures userId == "" ==> e == Some(NoUserIdError)
    ensures userId != "" && !Truthy(p.username) ==> e == Some(NoUsernameError)
  {
    if userId == "" then Some(NoUserIdError)
    else if !Truthy(p.username) then Some(NoUsernameError)
    else None
  }

  /** The row `handleSave` hands to the upsert once validation passed: none when the avatar
      upload throws; otherwise the profile with its defaults and the new avatar URL, or the
      old one when no new file was picked. */
  function RowToWrite(userId: string, p: Profile, avatarFile: Option<File>,
                      uploaded: Result<string, string>): (w: Option<ProfileRecord>)
    requires SaveError(userId, p).None?
    ensures w.Some? <==> avatarFile.None? || uploaded.Ok?
    ensures w.Some? ==> w.value == SaveRecord(userId, p.username.value, p,
                                              if avatarFile.Some? then Some(uploaded.value)
                                              else p.avatarUrl)
  {
    if avatarFile.None? then Some(SaveRecord(userId, p.username.value, p, p.avatarUrl))
    else
      match UploadAvatar(avatarFile, userId, p.avatarUrl, uploaded).result
      case Ok(url) => Some(SaveRecord(userId, p.username.value, p, url))
      case Err(_) => None
  }

  /** A saved row read back into the form. */
  function AsProfile(r: ProfileRecord): Profile {
    Profile(Some(r.id), Some(r.username), Some(r.ageGroup), Some(r.gender), Some(r.occupation),
            Some(r.interests), Some(r.bio), r.avatarUrl)
  }

  /** Loading a saved row and saving it again writes the same row: the defaults are
      idempotent. */
  lemma SaveAfterLoad(userId: string, username: string, p: Profile, avatarUrl: Option<string>)
    ensures var r := SaveRecord(userId, username, p, avatarUrl);
            SaveRecord(r.id, r.username, AsProfile(r), r.avatarUrl) == r
  {
  }

  /** The profile the dialog shows after loading: the stored row, or the initial profile
      with the user's id when there is none, or the initial profile after an error. */
  function LoadedProfile(userId: string, fetched: Result<Option<Profile>, string>): (p: Profile)
    ensures fetched.Ok? && fetched.value.Some? ==> p == fetched.value.value
    ensures fetched.Ok? && fetched.value.None? ==> p == InitialProfile.(id := Some(userId))
    ensures fetched.Err? ==> p == InitialProfile
  {
    match fetched
    case Ok(Some(row)) => row
    case Ok(None) => InitialProfile.(id := Some(userId))
    case Err(_) => InitialProfile
  }

  /** The text fields and selects of the form. */
  datatype Field = Username | AgeGroup | Gender | Occupation | Bio

  /** `{ ...profile, [field]: value }` */
  function WithField(p: Profile, f: Field, value: string): Profile {
    match f
    case Username => p.(username := Some(value))
    case AgeGroup => p.(ageGroup := Some(value))
    case Gender => p.(gender := Some(value))
    case Occupation => p.(occupation := Some(value))
    case Bio => p.(bio := Some(value))
  }

  /** An edit reaches the saved row: a non-empty value is saved as typed, and an empty age
      group, gender, occupation or bio falls back to its default; the other columns are
      those of the profile before the edit. */
  lemma EditReachesSavedRow(userId: string, username: string, p: Profile, f: Field, value: string,
                            avatarUrl: Option<string>)
    requires f != Username
    ensures var before := SaveRecord(userId, username, p, avatarUrl);
            var r := SaveRecord(userId, username, WithField(p, f, value), avatarUrl);
            && (f == AgeGroup ==> r == before.(ageGroup := if value != "" then value else Unanswered))
            && (f == Gender ==> r == before.(gender := if value != "" then value else Unanswered))
            && (f == Occupation ==> r == before.(occupation := value))
            && (f == Bio ==> r == before.(bio := value))
  {
  }

  /** After typing a user name save validation passes exactly when the user id and the typed
      name are both non-empty; editing another field leaves validation as it was. */
  lemma EditDecidesSaveChecks(userId: string, p: Profile, f: Field, value: string)
    ensures f == Username ==>
              (SaveError(userId, WithField(p, f, value)).None? <==> userId != "" && value != "")
    ensures f != Username ==> SaveError(userId, WithField(p, f, value)) == SaveError(userId, p)
  {
  }

  // ---------------------------------------------------------------------------------------
  // The dialog
  // ---------------------------------------------------------------------------------------

  /** The state of the profile dialog; `closed` records that the dialog asked to close. */
  class ProfileForm {
    var profile: Profile
    var error: Option<string>
    var loading: bool
    var avatarFile: Option<File>
    var avatarPreview: Option<string>
    var closed: bool

    constructor()
      ensures profile == InitialProfile && error == None && !loading
      ensures avatarFile == None && avatarPreview == None && !closed
    {
      profile := InitialProfile;
      error := None;
      loading := false;
      avatarFile := None;
      avatarPreview := None;
      closed := false;
    }

    /** `loadProfile`: `fetched` is the answer of the profile query. */
    method LoadProfile(userId: string, fetched: Result<Option<Profile>, string>)
      modifies this
      ensures userId == "" ==> profile == old(profile) && error == Some(NoUserIdError)
      ensures userId != "" ==> profile == LoadedProfile(userId, fetched)
      ensures userId != "" ==> error == if fetched.Err? then Some(LoadFailedError) else old(error)
      ensures loading == old(loading) && avatarFile == old(avatarFile)
      ensures avatarPreview == old(avatarPreview) && closed == old(closed)
    {
      if userId == "" {
        error := Some(NoUserIdError);
        return;
      }
      match fetched {
        case Ok(Some(row)) =>
          profile := row;
        case Ok(None) =>
          profile := InitialProfile.(id := Some(userId));
        case Err(_) =>
          profile := InitialProfile;
          error := Some(LoadFailedError);
      }
    }

    /** `handleAvatarChange`: `picked` is the first selected file, if any, and `preview`
        the object URL the browser makes for it. */
    method HandleAvatarChange(picked: Option<File>, preview: string)
      modifies this
      ensures picked.Some? && picked.value.size <= MaxAvatarBytes ==>
                avatarFile == picked && avatarPreview == Some(preview) && error == old(error)
      ensures picked.Some? && picked.value.size > MaxAvatarBytes ==>
                avatarFile == old(avatarFile) && avatarPreview == old(avatarPreview)
                && error == Some(AvatarTooLargeError)
      ensures picked.None? ==>
                avatarFile == old(avatarFile) && avatarPreview == old(avatarPreview) && error == old(error)
      ensures profile == old(profile) && loading == old(loading) && closed == old(closed)
    {
      if picked.Some? {
        if picked.value.size > MaxAvatarBytes {
          error := Some(AvatarTooLargeError);
          return;
        }
        avatarFile := picked;
        avatarPreview := Some(preview);
      }
    }

    /** `handleSave`. `uploaded` is the storage service's answer for the avatar upload and
        `upsertOk` whether the row was written; `written` is the row handed to the upsert,
        if the handler got that far. */
    method HandleSave(userId: string, uploaded: Result<string, string>, upsertOk: bool)
      returns (written: Option<ProfileRecord>)
      modifies this
      ensures SaveError(userId, profile).Some? ==>
                written == None && error == SaveError(userId, profile)
                && loading == old(loading) && closed == old(closed)
      ensures SaveError(userId, profile).None? ==>
                && !loading
                && written == RowToWrite(userId, profile, avatarFile, uploaded)
                && (closed <==> old(closed) || (written.Some? && upsertOk))
                && error == (if written.Some? && upsertOk then None else Some(SaveFailedError))
      ensures profile == old(profile) && avatarFile == old(avatarFile)
      ensures avatarPreview == old(avatarPreview)
    {
      written := None;
      var invalid := SaveError(userId, profile);
      if invalid.Some? {
        error := invalid;
        return;
      }
      loading := true;
      error := None;
      written := RowToWrite(userId, profile, avatarFile, uploaded);
      if written.Some? && upsertOk {
        closed := true;
      } else {
        error := Some(SaveFailedError);
      }
      loading := false;
    }

    /** `handleInterestToggle`. */
    method HandleInterestToggle(interest: string)
      modifies this
      ensures profile == old(profile).(interests := Some(ToggleInterest(InterestsOf(old(profile)), interest)))
      ensures error == old(error) && loading == old(loading) && avatarFile == old(avatarFile)
      ensures avatarPreview == old(avatarPreview) && closed == old(closed)
    {
      var current := InterestsOf(profile);
      var next: seq<string>;
      if interest in current {
        next := Without(current, interest);
      } else {
        next := current + [interest];
      }
      profile := profile.(interests := Some(next));
    }

    /** The change handlers of the user name, occupation and bio fields and of the age-group
        and gender selects. */
    method SetField(f: Field, value: string)
      modifies this
      ensures profile == WithField(old(profile), f, value)
      ensures error == old(error) && loading == old(loading) && avatarFile == old(avatarFile)
      ensures avatarPreview == old(avatarPreview) && closed == old(closed)
    {
      profile := WithField(profile, f, value);
    }
  }
}
