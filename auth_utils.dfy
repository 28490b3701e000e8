/**
 * Token and user-data lookups (src/utils/authUtils.ts). The cookie jar is
 * the `document.cookie` text and local storage is a map; writing cookies
 * is browser I/O and is not part of this model.
 */
module AuthUtils {
  import opened Common

  const AccessTokenKey := "accessToken"
  const RefreshTokenKey := "refreshToken"
  const UserDataKey := "userData"

  // ---------------------------------------------------------------------
  // getCookie
  // ---------------------------------------------------------------------

  /** The entry with its leading blanks (only ' ') removed. */
  function StripLeadingSpaces(c: string): (r: string)
  {
    if c != [] && c[0] == ' ' then StripLeadingSpaces(c[1..]) else c
  }

  /** Only blanks are removed, all of them, and the rest is kept whole. */
  lemma {:induction false} StripLeadingSpacesSpec(c: string)
    ensures var r := StripLeadingSpaces(c);
      |r| <= |c| && r == c[|c| - |r|..] && (r == [] || r[0] != ' ')
      && forall i :: 0 <= i < |c| - |r| ==> c[i] == ' '
  {
    if c != [] && c[0] == ' ' {
      StripLeadingSpacesSpec(c[1..]);
      assert forall i :: 1 <= i < |c| ==> c[i] == c[1..][i - 1];
    }
  }

  /** The value of the first entry that, stripped, starts with `nameEQ`. */
  function FindCookie(entries: seq<string>, nameEQ: string): (r: Option<string>)
  {
    if entries == [] then None
    else
      var c := StripLeadingSpaces(entries[0]);
      if StartsWith(c, nameEQ) then Some(c[|nameEQ|..]) else FindCookie(entries[1..], nameEQ)
  }

  /** `getCookie(name)` against the cookie text. */
  function CookieValue(cookie: string, name: string): Option<string>
  {
    FindCookie(Split(cookie, ';'), name + "=")
  }

  /** `while (c.charAt(0) === ' ') c = c.substring(1)` */
  method StripSpaces(c0: string) returns (c: string)
    ensures c == StripLeadingSpaces(c0)
  {
    c := c0;
    while |c| > 0 && c[0] == ' '
      invariant StripLeadingSpaces(c) == StripLeadingSpaces(c0)
    {
      c := c[1..];
    }
  }

  /** `getCookie`: a scan over the ';'-separated entries. */
  method GetCookie(cookie: string, name: string) returns (r: Option<string>)
    ensures r == CookieValue(cookie, name)
  {
    var nameEQ := name + "=";
    var ca := Split(cookie, ';');
    var i := 0;
    while i < |ca|
      invariant 0 <= i <= |ca|
      invariant FindCookie(ca[i..], nameEQ) == FindCookie(ca, nameEQ)
    {
      var c := StripSpaces(ca[i]);
      FindCookieStep(ca, i, nameEQ);
      if StartsWith(c, nameEQ) {
        return Some(c[|nameEQ|..]);
      }
      i := i + 1;
    }
    return None;
  }

  lemma {:induction false} FindCookieStep(ca: seq<string>, i: nat, nameEQ: string)
    requires i < |ca|
    ensures var c := StripLeadingSpaces(ca[i]);
      FindCookie(ca[i..], nameEQ) == if StartsWith(c, nameEQ) then Some(c[|nameEQ|..]) else FindCookie(ca[i + 1..], nameEQ)
  {
    assert ca[i..][0] == ca[i];
    assert ca[i..][1..] == ca[i + 1..];
  }

  /** The entry, stripped of leading blanks, starts with `nameEQ`. */
  predicate Matches(entry: string, nameEQ: string)
  {
    StartsWith(StripLeadingSpaces(entry), nameEQ)
  }

  /** The lookup finds nothing exactly when no entry matches. */
  lemma {:induction false} FindCookieNone(entries: seq<string>, nameEQ: string)
    ensures FindCookie(entries, nameEQ).None? <==> forall i :: 0 <= i < |entries| ==> !Matches(entries[i], nameEQ)
  {
    if entries != [] {
      var rest := entries[1..];
      FindCookieNone(rest, nameEQ);
      if Matches(entries[0], nameEQ) {
        assert FindCookie(entries, nameEQ).Some?;
      } else {
        assert FindCookie(entries, nameEQ) == FindCookie(rest, nameEQ);
        ShiftMatches(entries, nameEQ);
      }
    }
  }

  /** Past a first entry that does not match, no entry matches iff none of the rest does. */
  lemma {:induction false} ShiftMatches(entries: seq<string>, nameEQ: string)
    requires entries != [] && !Matches(entries[0], nameEQ)
    ensures (forall i :: 0 <= i < |entries| ==> !Matches(entries[i], nameEQ))
      <==> (forall i :: 0 <= i < |entries| - 1 ==> !Matches(entries[1..][i], nameEQ))
  {
    forall i | 0 <= i < |entries| - 1
      ensures entries[1..][i] == entries[i + 1]
    {
    }
    if forall i :: 0 <= i < |entries| - 1 ==> !Matches(entries[1..][i], nameEQ) {
      forall i | 0 <= i < |entries|
        ensures !Matches(entries[i], nameEQ)
      {
        if i > 0 {
          assert entries[i] == entries[1..][i - 1];
        }
      }
    }
  }
  /** A found value is the rest of the first matching entry. */
  lemma {:induction false} FindCookieFirst(entries: seq<string>, nameEQ: string) returns (i: nat)
    requires FindCookie(entries, nameEQ).Some?
    ensures i < |entries| && StripLeadingSpaces(entries[i]) == nameEQ + FindCookie(entries, nameEQ).value
    ensures forall j :: 0 <= j < i ==> !Matches(entries[j], nameEQ)
  {
    var c := StripLeadingSpaces(entries[0]);
    if StartsWith(c, nameEQ) {
      assert c == nameEQ + c[|nameEQ|..];
      i := 0;
    } else {
      var rest := entries[1..];
      assert FindCookie(entries, nameEQ) == FindCookie(rest, nameEQ);
      var k := FindCookieFirst(rest, nameEQ);
      i := k + 1;
      assert entries[i] == rest[k];
      forall j | 0 <= j < i
        ensures !Matches(entries[j], nameEQ)
      {
        if j > 0 {
          assert entries[j] == rest[j - 1];
        }
      }
    }
  }

  /** A cookie written alone as `name=value`, after any blanks, reads back as `value`. */
  lemma {:induction false} CookieRoundTrip(lead: string, name: string, value: string)
    requires forall i :: 0 <= i < |lead| ==> lead[i] == ' '
    requires name != [] && name[0] != ' ' && ';' !in lead && ';' !in name && ';' !in value
    ensures CookieValue(lead + name + "=" + value, name) == Some(value)
  {
    var t := name + "=" + value;
    var s := lead + t;
    assert s == lead + name + "=" + value;
    assert ';' !in s by {
      assert forall i :: 0 <= i < |s| ==> s[i] in lead || s[i] in name || s[i] == '=' || s[i] in value;
    }
    SplitNoSep(s, ';');
    StripBlanks(lead, t);
    NameEqPrefix(name, value);
  }

  lemma {:induction false} NameEqPrefix(name: string, value: string)
    ensures StartsWith(name + "=" + value, name + "=")
    ensures (name + "=" + value)[|name| + 1..] == value
  {
    assert (name + "=" + value)[..|name| + 1] == name + "=";
  }

  lemma {:induction false} StripBlanks(lead: string, t: string)
    requires forall i :: 0 <= i < |lead| ==> lead[i] == ' '
    requires t == [] || t[0] != ' '
    ensures StripLeadingSpaces(lead + t) == t
  {
    if lead != [] {
      assert (lead + t)[1..] == lead[1..] + t;
      StripBlanks(lead[1..], t);
    } else {
      assert lead + t == t;
    }
  }

  /** The first entry, when it matches, gives the value whatever follows. */
  lemma {:induction false} CookieFirst(entry: string, rest: string, name: string)
    requires ';' !in entry && Matches(entry, name + "=")
    ensures CookieValue(entry + ";" + rest, name) == Some(StripLeadingSpaces(entry)[|name| + 1..])
  {
    SplitCons(entry, rest, ';');
  }

  /** An entry that does not match is skipped: the lookup continues after its ';'. */
  lemma {:induction false} CookieSkip(entry: string, rest: string, name: string)
    requires ';' !in entry && !StartsWith(StripLeadingSpaces(entry), name + "=")
    ensures CookieValue(entry + ";" + rest, name) == CookieValue(rest, name)
  {
    SplitCons(entry, rest, ';');
    var ca := Split(entry + ";" + rest, ';');
    assert ca[1..] == Split(rest, ';');
  }

  /**
   * A cookie whose name only begins with `name` (such as `accessTokenX`)
   * is not taken for `name`: the '=' belongs to the prefix test.
   */
  lemma {:induction false} LongerNameNotMatched(name: string, x: string, value: string)
    requires name != [] && name[0] != ' ' && x != [] && x[0] != '='
    requires ';' !in name + x + "=" + value
    ensures CookieValue(name + x + "=" + value, name) == None
  {
    var s := name + x + "=" + value;
    SplitNoSep(s, ';');
    assert StripLeadingSpaces(s) == s;
    assert s[..|name| + 1][|name|] == x[0] != (name + "=")[|name|];
    assert !StartsWith(s, name + "=");
    var one: seq<string> := [s];
    assert one[1..] == [];
    assert FindCookie(one, name + "=") == FindCookie(one[1..], name + "=");
  }

  // ---------------------------------------------------------------------
  // Tokens and the header
  // ---------------------------------------------------------------------

  /** A cookie value that is present and non-empty (`!!value`). */
  predicate Present(v: Option<string>)
  {
    v.Some? && v.value != ""
  }

  /** `hasTokens` */
  predicate HasTokens(cookie: string)
  {
    Present(CookieValue(cookie, AccessTokenKey)) && Present(CookieValue(cookie, RefreshTokenKey))
  }

  /** `getAuthHeader`: an empty object, or a bearer `Authorization` entry. */
  function GetAuthHeader(cookie: string): (h: Record)
    ensures |h| <= 1
    ensures h == [] <==> !Present(CookieValue(cookie, AccessTokenKey))
    ensures h != [] ==> h[0].0 == "Authorization" && h[0].1 == "Bearer " + CookieValue(cookie, AccessTokenKey).value
  {
    var token := CookieValue(cookie, AccessTokenKey);
    if !Present(token) then [] else [("Authorization", "Bearer " + token.value)]
  }

  /** Whoever holds both tokens sends a bearer header. */
  lemma {:induction false} TokensGiveHeader(cookie: string)
    requires HasTokens(cookie)
    ensures Get(GetAuthHeader(cookie), "Authorization") == Some("Bearer " + CookieValue(cookie, AccessTokenKey).value)
  {
  }

  /** Two freshly written tokens, in the order the browser lists them, are both found. */
  lemma {:induction false} SavedTokensFound(access: string, refresh: string)
    requires access != "" && refresh != ""
    requires ';' !in access && ';' !in refresh
    ensures HasTokens(AccessTokenKey + "=" + access + "; " + RefreshTokenKey + "=" + refresh)
  {
    var first := AccessTokenKey + "=" + access;
    var second := " " + RefreshTokenKey + "=" + refresh;
    assert "; " == ";" + " ";
    assert AccessTokenKey + "=" + access + "; " + RefreshTokenKey + "=" + refresh == first + ";" + second;
    AccessFirst(first, second, access);
    RefreshSecond(first, second, refresh);
  }

  lemma {:induction false} AccessFirst(first: string, second: string, access: string)
    requires first == AccessTokenKey + "=" + access && ';' !in access
    ensures CookieValue(first + ";" + second, AccessTokenKey) == Some(access)
  {
    assert StripLeadingSpaces(first) == first;
    NameEqPrefix(AccessTokenKey, access);
    CookieFirst(first, second, AccessTokenKey);
  }

  lemma {:induction false} RefreshSecond(first: string, second: string, refresh: string)
    requires first != [] && first[0] == 'a' && ';' !in first
    requires second == " " + RefreshTokenKey + "=" + refresh && ';' !in refresh
    ensures CookieValue(first + ";" + second, RefreshTokenKey) == Some(refresh)
  {
    RefreshNotFirst(first);
    CookieSkip(first, second, RefreshTokenKey);
    KeysPlain();
    CookieRoundTrip(" ", RefreshTokenKey, refresh);
  }

  /** An entry starting with 'a' is not the refresh token's. */
  lemma {:induction false} RefreshNotFirst(first: string)
    requires first != [] && first[0] == 'a'
    ensures !StartsWith(StripLeadingSpaces(first), RefreshTokenKey + "=")
  {
    assert StripLeadingSpaces(first) == first;
    assert (RefreshTokenKey + "=")[0] == 'r';
  }

  /** The key names hold no ';' and start with no blank. */
  lemma {:induction false} KeysPlain()
    ensures ';' !in AccessTokenKey && ';' !in RefreshTokenKey
    ensures AccessTokenKey[0] == 'a' && RefreshTokenKey[0] == 'r'
  {
  }

  // ---------------------------------------------------------------------
  // getUserData
  // ---------------------------------------------------------------------

  /**
   * `getUserData` over local storage: `parse` stands for `JSON.parse`,
   * `None` meaning it threw. The result is the parsed value and the storage
   * afterwards.
   */
  function GetUserData<T>(storage: map<string, string>, parse: string -> Option<T>): (r: (Option<T>, map<string, string>))
    ensures r.0.Some? ==> UserDataKey in storage && parse(storage[UserDataKey]) == r.0
    ensures r.1 == storage || r.1 == storage - {UserDataKey}
    ensures (UserDataKey !in storage || storage[UserDataKey] == "") ==> r == (None, storage)
    ensures UserDataKey in storage && storage[UserDataKey] != "" && parse(storage[UserDataKey]).None? ==>
      r == (None, storage - {UserDataKey})
  {
    if UserDataKey !in storage || storage[UserDataKey] == "" then (None, storage)
    else
      var parsed := parse(storage[UserDataKey]);
      if parsed.None? then (None, storage - {UserDataKey}) else (parsed, storage)
  }

  /** `saveUserData`: the serialised text is stored under the user-data key. */
  function SaveUserData(storage: map<string, string>, text: string): (s: map<string, string>)
    ensures UserDataKey in s && s[UserDataKey] == text
    ensures forall k :: k in storage && k != UserDataKey ==> k in s && s[k] == storage[k]
  {
    storage[UserDataKey := text]
  }

  /** What was saved and parses is read back, and the storage is left as it is. */
  lemma {:induction false} UserDataRoundTrip<T>(storage: map<string, string>, text: string, parse: string -> Option<T>, v: T)
    requires text != "" && parse(text) == Some(v)
    ensures GetUserData(SaveUserData(storage, text), parse) == (Some(v), SaveUserData(storage, text))
  {
  }

  /** Unreadable data is dropped once; a second read finds nothing and changes nothing. */
  lemma {:induction false} BadUserDataDroppedOnce<T>(storage: map<string, string>, parse: string -> Option<T>)
    ensures var r := GetUserData(storage, parse);
      GetUserData(r.1, parse).1 == r.1 && (r.0.None? ==> GetUserData(r.1, parse).0.None?)
  {
  }
}
