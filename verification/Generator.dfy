/** Names for new AccessRequests (internal/backend/generator/generator.go and
    getAccessRequestPrefix in internal/backend/service.go). */
module Generator {

  const MAX_NAME_LENGTH := 63
  const RANDOM_LENGTH := 5

  /** What is left of a name for its prefix. */
  const MAX_PREFIX_LENGTH := MAX_NAME_LENGTH - RANDOM_LENGTH

  function Min(x: int, y: int): int {
    if x < y then x else y
  }

  function Max(x: int, y: int): int {
    if x < y then y else x
  }

  // ---------------------------------------------------------------- sanitising

  predicate Alphanumeric(c: char) {
    'a' <= c <= 'z' || '0' <= c <= '9'
  }

  predicate Valid(c: char) {
    Alphanumeric(c) || c == '-' || c == '.'
  }

  /** `beyond` lowers the characters beyond ASCII; nothing is known about it. */
  function ToLower(s: string, beyond: char -> char): (t: string)
    ensures |t| == |s|
  {
    seq(|s|, i requires 0 <= i < |s| =>
      if 'A' <= s[i] <= 'Z' then s[i] + 32 as char else if s[i] < 128 as char then s[i] else beyond(s[i]))
  }

  /** ASCII letters in upper case become the letters in lower case, other ASCII characters stay, and every
      character beyond ASCII is replaced by what `beyond` says. */
  lemma Lowered(s: string, beyond: char -> char, i: nat)
    requires i < |s|
    ensures var t := ToLower(s, beyond);
      && |t| == |s|
      && ('A' <= s[i] <= 'Z' ==>
            t[i] == "abcdefghijklmnopqrstuvwxyz"[s[i] as int - 'A' as int]
            && s[i] == "ABCDEFGHIJKLMNOPQRSTUVWXYZ"[s[i] as int - 'A' as int])
      && (s[i] < 128 as char && !('A' <= s[i] <= 'Z') ==> t[i] == s[i])
      && (s[i] >= 128 as char ==> t[i] == beyond(s[i]))
  {
  }

  function DropInvalid(s: string): string {
    if s == "" then "" else (if Valid(s[0]) then [s[0]] else "") + DropInvalid(s[1..])
  }

  function DropStart(s: string): string {
    if s == "" || Alphanumeric(s[0]) then s else DropStart(s[1..])
  }

  function ToDNS1123Subdomain(data: string, beyond: char -> char): string {
    DropStart(DropInvalid(ToLower(data, beyond)))
  }

  /** Only valid characters, and an alphanumeric one first. */
  predicate Sanitised(s: string) {
    (forall i :: 0 <= i < |s| ==> Valid(s[i])) && (s != "" ==> Alphanumeric(s[0]))
  }

  lemma {:induction false} DropInvalidKeepsValid(s: string)
    ensures forall i :: 0 <= i < |DropInvalid(s)| ==> Valid(DropInvalid(s)[i])
    ensures (forall i :: 0 <= i < |s| ==> Valid(s[i])) ==> DropInvalid(s) == s
  {
    if s != "" {
      DropInvalidKeepsValid(s[1..]);
      assert s == [s[0]] + s[1..];
    }
  }

  lemma {:induction false} DropStartIsSuffix(s: string)
    ensures |DropStart(s)| <= |s| && DropStart(s) == s[|s| - |DropStart(s)|..]
    ensures DropStart(s) != "" ==> Alphanumeric(DropStart(s)[0])
    ensures forall i :: 0 <= i < |s| - |DropStart(s)| ==> !Alphanumeric(s[i])
  {
    if s != "" && !Alphanumeric(s[0]) {
      var rest, kept := s[1..], DropStart(s[1..]);
      DropStartIsSuffix(rest);
      var n := |rest| - |kept|;
      assert rest[n..] == s[n + 1..];
      forall i | 0 <= i < n + 1 ensures !Alphanumeric(s[i]) {
        if i > 0 { assert s[i] == rest[i - 1]; }
      }
    }
  }

  lemma SanitisedStays(s: string, beyond: char -> char)
    requires Sanitised(s)
    ensures ToDNS1123Subdomain(s, beyond) == s
  {
    assert forall i :: 0 <= i < |s| ==> ToLower(s, beyond)[i] == s[i];
    assert ToLower(s, beyond) == s;
    DropInvalidKeepsValid(s);
  }

  /** The result is sanitised, a sanitised string stays as it is, and so sanitising twice is
      sanitising once. */
  lemma SanitisingIsIdempotent(data: string, beyond: char -> char)
    ensures Sanitised(ToDNS1123Subdomain(data, beyond))
    ensures Sanitised(data) ==> ToDNS1123Subdomain(data, beyond) == data
    ensures ToDNS1123Subdomain(ToDNS1123Subdomain(data, beyond), beyond) == ToDNS1123Subdomain(data, beyond)
  {
    var once := ToDNS1123Subdomain(data, beyond);
    DropInvalidKeepsValid(ToLower(data, beyond));
    DropStartIsSuffix(DropInvalid(ToLower(data, beyond)));
    SanitisedStays(once, beyond);
    if Sanitised(data) { SanitisedStays(data, beyond); }
  }

  lemma {:induction false} DropInvalidNext(s: string, c: char)
    ensures DropInvalid(s + [c]) == DropInvalid(s) + (if Valid(c) then [c] else "")
  {
    if s == "" {
      assert (s + [c])[1..] == "";
    } else {
      DropInvalidNext(s[1..], c);
      assert (s + [c])[1..] == s[1..] + [c];
    }
  }

  lemma {:induction false} DropStartNext(s: string, c: char)
    ensures DropStart(s + [c]) == if DropStart(s) == "" && !Alphanumeric(c) then "" else DropStart(s) + [c]
  {
    if s == "" {
      assert (s + [c])[1..] == "";
    } else {
      DropStartNext(s[1..], c);
      assert (s + [c])[1..] == s[1..] + [c];
    }
  }

  /** Read from left to right, the lower-case form of a character is kept if it is valid, and one that is
      not alphanumeric only behind another. */
  lemma SanitisedNext(data: string, c: char, beyond: char -> char)
    ensures ToDNS1123Subdomain("", beyond) == ""
    ensures var kept, l := ToDNS1123Subdomain(data, beyond), ToLower([c], beyond)[0];
      ToDNS1123Subdomain(data + [c], beyond)
      == if 'a' <= l <= 'z' || '0' <= l <= '9' || ((l == '-' || l == '.') && kept != "") then kept + [l] else kept
  {
    var l := ToLower([c], beyond)[0];
    assert ToLower(data + [c], beyond) == ToLower(data, beyond) + [l];
    DropInvalidNext(ToLower(data, beyond), l);
    var valid := DropInvalid(ToLower(data, beyond));
    DropStartNext(valid, l);
    assert valid + "" == valid;
  }

  // ---------------------------------------------------------------- shortening

  /** Shortens two strings to `max` characters in all: nothing is cut that fits, a string of at
      most half of `max` is kept whole, and of two longer ones each keeps half, the first also
      the odd character. */
  method ToMaxLength(first: string, second: string, max: nat) returns (a: string, b: string)
    ensures a <= first && b <= second
    ensures |a| + |b| == Min(max, |first| + |second|)
    ensures |first| <= max / 2 ==> a == first
    ensures |second| <= max / 2 ==> b == second
    ensures |first| > max / 2 && |second| > max / 2 ==> |a| == max / 2 + max % 2 && |b| == max / 2
  {
    a, b := first, second;
    var aLength, bLength := |a|, |b|;
    var halfLength := max / 2;
    var remainder := max % 2;
    var minLength := Min(aLength, bLength);
    var available := Max(0, halfLength - minLength);
    if aLength >= halfLength + available + remainder {
      a := a[..halfLength + available + remainder];
      remainder := 0;
    }
    if bLength >= halfLength + available + remainder {
      b := b[..halfLength + available + remainder];
      remainder := 0;
    }
  }

  // ---------------------------------------------------------------- the prefix

  /** The part before the first '@'. */
  function BeforeAt(s: string): string {
    if s == "" || s[0] == '@' then "" else [s[0]] + BeforeAt(s[1..])
  }

  lemma {:induction false} BeforeAtIsPrefix(s: string)
    ensures BeforeAt(s) <= s && '@' !in BeforeAt(s)
    ensures BeforeAt(s) != s ==> s[|BeforeAt(s)|] == '@'
  {
    if s != "" && s[0] != '@' {
      BeforeAtIsPrefix(s[1..]);
    }
  }

  lemma PrefixFacts(u: string, r: string, user: string, role: string)
    requires user <= u && role <= r && (u != "" ==> user != "") && Sanitised(u) && Sanitised(r)
    ensures var prefix := user + "-" + role + "-";
      && |prefix| == |user| + |role| + 2
      && (forall i :: 0 <= i < |prefix| ==> Valid(prefix[i]))
      && (Alphanumeric(prefix[0]) <==> u != "")
  {
    var prefix := user + "-" + role + "-";
    assert user != "" ==> prefix[0] == user[0] && user[0] == u[0];
    assert user == "" ==> prefix[0] == '-';
  }

  /** The prefix holds the sanitised user and role names, shortened only when it would be longer than 58
      characters, then one of at most 28 characters not at all and two longer ones to 28 each, and
      starts alphanumeric exactly when something is left of the user name. */
  method GetAccessRequestPrefix(username: string, roleName: string, beyond: char -> char)
      returns (prefix: string, ghost user: string, ghost role: string)
    ensures prefix == user + "-" + role + "-"
    ensures user <= ToDNS1123Subdomain(BeforeAt(username), beyond) && role <= ToDNS1123Subdomain(roleName, beyond)
    ensures var u, r := ToDNS1123Subdomain(BeforeAt(username), beyond), ToDNS1123Subdomain(roleName, beyond);
      && |prefix| == Min(58, |u| + |r| + 2)
      && (|u| <= 28 ==> user == u) && (|r| <= 28 ==> role == r)
      && (|u| > 28 && |r| > 28 ==> |user| == 28 && |role| == 28)
    ensures forall i :: 0 <= i < |prefix| ==> Valid(prefix[i])
    ensures Alphanumeric(prefix[0]) <==> ToDNS1123Subdomain(BeforeAt(username), beyond) != ""
  {
    var u := ToDNS1123Subdomain(BeforeAt(username), beyond);
    var r := ToDNS1123Subdomain(roleName, beyond);
    SanitisingIsIdempotent(BeforeAt(username), beyond);
    SanitisingIsIdempotent(roleName, beyond);
    ghost var wholeUser, wholeRole := u, r;
    prefix := u + "-" + r + "-";
    if MAX_PREFIX_LENGTH - |prefix| < 0 {
      var extraCharLength := 2;
      u, r := ToMaxLength(u, r, MAX_PREFIX_LENGTH - extraCharLength);
      prefix := u + "-" + r + "-";
    }
    user, role := u, r;
    PrefixFacts(wholeUser, wholeRole, user, role);
  }
}
