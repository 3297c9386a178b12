/** The local user record (app/models/user.py) and how it is synced from the
    identity provider's user info (app/services/supabase_service.py): the
    required-field check, the defaults of a new user, and the derivation of
    first and last name from metadata, a full name or the email address. */
module Users {
  import opened Basics

  /** The `user_metadata` entries the name derivation reads; `None` means the
      key is absent. */
  datatype UserMetadata = UserMetadata(firstName: Option<string>, lastName: Option<string>, fullName: Option<string>)

  /** The user info the token verifier returns; `None` means the key is
      absent. A missing `user_metadata` is the metadata with no entries. */
  datatype UserInfo = UserInfo(
    userId: Option<string>,
    email: Option<string>,
    provider: Option<string>,
    metadata: UserMetadata)

  datatype SyncFault = MissingRequiredField(field: string)  // ValueError

  // ---------------------------------------------------------------- strings

  /** The ASCII characters `str.strip()` removes: the whitespace characters
      and the file, group, record and unit separators. */
  predicate IsSpace(c: char)
  {
    c == ' ' || c == '\t' || c == '\n' || c == '\r' || c == '\U{B}' || c == '\U{C}'
    || c == '\U{1C}' || c == '\U{1D}' || c == '\U{1E}' || c == '\U{1F}'
  }

  function TrimStart(s: string): (r: string)
    ensures |r| <= |s| && r == s[|s| - |r|..]
    ensures r != [] ==> !IsSpace(r[0])
    ensures forall k :: 0 <= k < |s| - |r| ==> IsSpace(s[k])
  {
    if s != [] && IsSpace(s[0]) then TrimStart(s[1..]) else s
  }

  function TrimEnd(s: string): (r: string)
    ensures |r| <= |s| && r == s[..|r|]
    ensures r != [] ==> !IsSpace(r[|r| - 1])
    ensures forall k :: |r| <= k < |s| ==> IsSpace(s[k])
  {
    if s != [] && IsSpace(s[|s| - 1]) then TrimEnd(s[..|s| - 1]) else s
  }

  /** `str.strip()`. */
  function Strip(s: string): string
  {
    TrimEnd(TrimStart(s))
  }

  /** The stripped text is the piece `s[i..j]` of the original left after
      cutting whitespace away at both ends. */
  lemma StripFacts(s: string) returns (i: nat, j: nat)
    ensures i <= j <= |s| && Strip(s) == s[i..j]
    ensures forall k :: 0 <= k < i ==> IsSpace(s[k])
    ensures forall k :: j <= k < |s| ==> IsSpace(s[k])
  {
    var t := TrimStart(s);
    var r := TrimEnd(t);
    i := |s| - |t|;
    j := i + |r|;
    assert t == s[i..];
    assert r == t[..|r|];
    assert r == s[i..j];
    forall k | j <= k < |s| ensures IsSpace(s[k]) {
      assert s[k] == t[k - i];
    }
  }

  /** The stripped text neither starts nor ends with whitespace. */
  lemma StripEnds(s: string)
    ensures Strip(s) != [] ==> !IsSpace(Strip(s)[0]) && !IsSpace(Strip(s)[|Strip(s)| - 1])
  {
    var t := TrimStart(s);
    if Strip(s) != [] {
      assert Strip(s)[0] == t[0];
    }
  }

  /** Text without whitespace at either end is left as it is. */
  lemma StripKeepsTrimmed(s: string)
    requires s == [] || (!IsSpace(s[0]) && !IsSpace(s[|s| - 1]))
    ensures Strip(s) == s
  {
  }

  /** The position of the first `c` in `s`, `|s|` if there is none. */
  function IndexOfChar(s: string, c: char): (i: nat)
    ensures i <= |s|
    ensures forall k :: 0 <= k < i ==> s[k] != c
    ensures i < |s| ==> s[i] == c
  {
    if s == [] || s[0] == c then 0 else 1 + IndexOfChar(s[1..], c)
  }

  /** The text before the first `c`, all of `s` if there is none
      (`s.split(c)[0]`). */
  function Before(s: string, c: char): (r: string)
    ensures c !in r
    ensures |r| <= |s| && r == s[..|r|]
    ensures |r| < |s| ==> s[|r|] == c
  {
    s[..IndexOfChar(s, c)]
  }

  /** The text after the first `c`, if there is one (the second part of
      `s.split(c, 1)`). */
  function After(s: string, c: char): (r: Option<string>)
    ensures r.None? <==> c !in s
    ensures r.Some? ==> s == Before(s, c) + [c] + r.value
  {
    var i := IndexOfChar(s, c);
    if i < |s| then Some(s[i + 1..]) else None
  }

  /** Splitting once at the first `c` undoes joining a `c`-free text and
      any rest with `c`; a text without `c` is all first part. */
  lemma SplitOnceRoundTrip(a: string, c: char, b: string)
    requires c !in a
    ensures Before(a + [c] + b, c) == a
    ensures After(a + [c] + b, c) == Some(b)
    ensures Before(a, c) == a && After(a, c).None?
  {
    var s := a + [c] + b;
    var i := IndexOfChar(s, c);
    assert s[|a|] == c;
    assert i == |a|;
    assert s[..|a|] == a;
    assert s[|a| + 1..] == b;
  }

  // --------------------------------------------------------------- the user

  /** One row of `users`; `created_at` and `updated_at` are not modelled. */
  class User {
    var id: string
    var email: string
    var firstName: string
    var lastName: string
    var isActive: bool
    var provider: string
    var emailNotifications: bool
    var lastReminderSent: Option<Instant>
    var deletedAt: Option<Instant>

    /** A new row as _create_new_user builds it: active, no names yet, the
        provider defaulting to "email", and the column defaults for the
        notification flag, the last reminder and the deletion time. */
    constructor (id: string, email: string, provider: Option<string>)
      ensures this.id == id && this.email == email
      ensures firstName == "" && lastName == ""
      ensures isActive && emailNotifications
      ensures this.provider == ProviderOrDefault(provider)
      ensures lastReminderSent.None? && deletedAt.None?
    {
      this.id := id;
      this.email := email;
      firstName := "";
      lastName := "";
      isActive := true;
      this.provider := ProviderOrDefault(provider);
      emailNotifications := true;
      lastReminderSent := None;
      deletedAt := None;
    }

    /** First and last name joined by a space, stripped: it neither starts
        nor ends with whitespace (FullNameJoins gives its value). */
    function FullName(): (r: string)
      reads this
      ensures r != [] ==> !IsSpace(r[0]) && !IsSpace(r[|r| - 1])
      ensures |r| <= |firstName| + 1 + |lastName|
    {
      StripEnds(firstName + " " + lastName);
      Strip(firstName + " " + lastName)
    }

    predicate IsDeleted()
      reads this
    {
      deletedAt.Some?
    }

    /** soft_delete: stamped as deleted and deactivated. */
    method SoftDelete(now: Instant)
      modifies this
      ensures deletedAt == Some(now) && !isActive
      ensures IsDeleted()
      ensures id == old(id) && email == old(email) && firstName == old(firstName) && lastName == old(lastName)
      ensures provider == old(provider) && emailNotifications == old(emailNotifications)
      ensures lastReminderSent == old(lastReminderSent)
    {
      deletedAt := Some(now);
      isActive := false;
    }

    /** _update_user_names, step by step on the record: metadata names are
        copied, a full name is split when there is still no first name, and
        the email's local part is the last resort. The email is read only in
        that last step; callers have checked that it is present. */
    method UpdateNames(info: UserInfo)
      requires info.email.Some?
      modifies this
      ensures (firstName, lastName) == NamesAfterUpdate(old(firstName), old(lastName), info)
      ensures id == old(id) && email == old(email) && isActive == old(isActive) && provider == old(provider)
      ensures emailNotifications == old(emailNotifications) && lastReminderSent == old(lastReminderSent)
      ensures deletedAt == old(deletedAt)
    {
      var meta := info.metadata;
      if meta.firstName.Some? {
        firstName := meta.firstName.value;
      }
      if meta.lastName.Some? {
        lastName := meta.lastName.value;
      }
      if meta.fullName.Some? && firstName == "" {
        var full := meta.fullName.value;
        firstName := Before(full, ' ');
        lastName := if After(full, ' ').Some? then After(full, ' ').value else "";
      }
      if firstName == "" {
        firstName := Before(info.email.value, '@');
      }
    }
  }

  /** `user_info.get("provider", "email")`. */
  function ProviderOrDefault(provider: Option<string>): (r: string)
    ensures provider.None? ==> r == "email"
    ensures provider.Some? ==> r == provider.value
  {
    if provider.Some? then provider.value else "email"
  }

  /** The names after _update_user_names, from the names before and the
      user info. */
  function NamesAfterUpdate(first: string, last: string, info: UserInfo): (string, string)
    requires info.email.Some?
  {
    var meta := info.metadata;
    var f1 := if meta.firstName.Some? then meta.firstName.value else first;
    var l1 := if meta.lastName.Some? then meta.lastName.value else last;
    var f2 := if meta.fullName.Some? && f1 == "" then Before(meta.fullName.value, ' ') else f1;
    var l2 := if meta.fullName.Some? && f1 == "" then
                (if After(meta.fullName.value, ' ').Some? then After(meta.fullName.value, ' ').value else "")
              else l1;
    (if f2 == "" then Before(info.email.value, '@') else f2, l2)
  }

  /** A non-empty metadata first name wins and the metadata last name is
      kept with it; a full name is used only while there is no first name,
      and then it is split at its first space into first and last name
      (the last empty without a space); the first name ends up empty only
      when the email has an empty local part. */
  lemma NameDerivation(first: string, last: string, info: UserInfo)
    requires info.email.Some?
    ensures var (f, l) := NamesAfterUpdate(first, last, info);
      var meta := info.metadata;
      var f1 := if meta.firstName.Some? then meta.firstName.value else first;
      var l1 := if meta.lastName.Some? then meta.lastName.value else last;
      && (f1 != "" ==> f == f1 && l == l1)
      && (f1 == "" && meta.fullName.Some? && Before(meta.fullName.value, ' ') != "" ==>
            f == Before(meta.fullName.value, ' ')
            && (meta.fullName.value == f + [' '] + l || (' ' !in meta.fullName.value && l == "")))
      && (f == "" <==> f1 == "" && (meta.fullName.None? || Before(meta.fullName.value, ' ') == "")
                       && Before(info.email.value, '@') == "")
      && (f1 == "" && meta.fullName.None? ==> f == Before(info.email.value, '@') && l == l1)
  {
  }

  /** A full name "first rest" given without a first name yields exactly
      those two parts. */
  lemma FullNameSplits(last: string, email: string, a: string, b: string)
    requires a != "" && ' ' !in a
    ensures NamesAfterUpdate("", last, UserInfo(None, Some(email), None, UserMetadata(None, None, Some(a + [' '] + b))))
      == (a, b)
  {
    SplitOnceRoundTrip(a, ' ', b);
  }

  /** `full_name` for names without surrounding whitespace is "first last"
      when both are present and the one present name otherwise. */
  lemma FullNameJoins(first: string, last: string)
    requires first == [] || (!IsSpace(first[0]) && !IsSpace(first[|first| - 1]))
    requires last == [] || (!IsSpace(last[0]) && !IsSpace(last[|last| - 1]))
    ensures first != "" && last != "" ==> Strip(first + " " + last) == first + " " + last
    ensures first != "" && last == "" ==> Strip(first + " " + last) == first
    ensures first == "" ==> Strip(first + " " + last) == last
  {
    var s := first + " " + last;
    if first != "" && last != "" {
      StripKeepsTrimmed(s);
    } else if first != "" {
      assert TrimStart(s) == s;
      assert s[..|s| - 1] == first;
      assert TrimEnd(s) == TrimEnd(first);
      StripKeepsTrimmed(first);
    } else {
      assert s[1..] == last;
      assert TrimStart(s) == TrimStart(last);
      StripKeepsTrimmed(last);
    }
  }
  // ------------------------------------------------------------- syncing

  /** The value of a required field of the user info. */
  function RequiredField(info: UserInfo, field: string): Option<string>
  {
    if field == "user_id" then info.userId else if field == "email" then info.email else None
  }

  /** `not user_info.get(field)`: absent or empty. */
  predicate FieldMissing(info: UserInfo, field: string)
  {
    RequiredField(info, field).None? || RequiredField(info, field).value == ""
  }

  /** The first required field that is missing, in the order checked. */
  function FirstMissingField(info: UserInfo): (r: Option<string>)
    ensures r.None? <==> info.userId.Some? && info.userId.value != "" && info.email.Some? && info.email.value != ""
    ensures r.Some? ==> r.value in ["user_id", "email"] && FieldMissing(info, r.value)
  {
    if FieldMissing(info, "user_id") then Some("user_id")
    else if FieldMissing(info, "email") then Some("email")
    else None
  }

  /** The required-field loop of sync_user_to_db. */
  method CheckRequiredFields(info: UserInfo) returns (missing: Option<string>)
    ensures missing == FirstMissingField(info)
  {
    var required := ["user_id", "email"];
    var k := 0;
    while k < |required|
      invariant 0 <= k <= |required|
      invariant forall m :: 0 <= m < k ==> !FieldMissing(info, required[m])
    {
      if FieldMissing(info, required[k]) {
        return Some(required[k]);
      }
      k := k + 1;
    }
    return None;
  }

  /** sync_user_to_db around its database calls: `existing` is what the
      lookup by id found (null when nothing). A missing field fails before
      anything changes; an existing user gets the new email and provider,
      is reactivated and has its names derived again; otherwise a new user
      is created with derived names. */
  method SyncUserToDb(existing: User?, info: UserInfo) returns (r: Result<User, SyncFault>)
    modifies if existing == null then {} else {existing}
    ensures FirstMissingField(info).Some? ==>
      r == Err(MissingRequiredField(FirstMissingField(info).value)) &&
      (existing != null ==> unchanged(existing))
    ensures FirstMissingField(info).None? && existing != null ==>
      && r.Ok? && r.value == existing
      && existing.email == info.email.value && existing.provider == ProviderOrDefault(info.provider)
      && existing.isActive
      && (existing.firstName, existing.lastName) == NamesAfterUpdate(old(existing.firstName), old(existing.lastName), info)
      && existing.id == old(existing.id) && existing.deletedAt == old(existing.deletedAt)
      && existing.emailNotifications == old(existing.emailNotifications)
      && existing.lastReminderSent == old(existing.lastReminderSent)
    ensures FirstMissingField(info).None? && existing == null ==>
      && r.Ok? && fresh(r.value)
      && r.value.id == info.userId.value && r.value.email == info.email.value
      && r.value.provider == ProviderOrDefault(info.provider) && r.value.isActive && r.value.emailNotifications
      && (r.value.firstName, r.value.lastName) == NamesAfterUpdate("", "", info)
      && r.value.deletedAt.None? && r.value.lastReminderSent.None?
  {
    var missing := CheckRequiredFields(info);
    if missing.Some? {
      return Err(MissingRequiredField(missing.value));
    }
    if existing != null {
      existing.email := info.email.value;
      existing.provider := ProviderOrDefault(info.provider);
      existing.isActive := true;
      existing.UpdateNames(info);
      return Ok(existing);
    }
    var u := new User(info.userId.value, info.email.value, info.provider);
    u.UpdateNames(info);
    return Ok(u);
  }

  /** The acceptance rule of the sync: it fails exactly when a required
      field is absent or empty. */
  lemma SyncRequiresIdAndEmail(info: UserInfo)
    ensures FirstMissingField(info).None? <==> !FieldMissing(info, "user_id") && !FieldMissing(info, "email")
    ensures FirstMissingField(UserInfo(Some(""), info.email, info.provider, info.metadata)) == Some("user_id")
  {
  }
}
