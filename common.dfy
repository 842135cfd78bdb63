/** Datatypes and string helpers shared by the components of the file-sharing client. */
module Common {

  datatype Option<T> = None | Some(value: T) {
    function GetOr(default: T): T
    {
      match this
      case Some(v) => v
      case None => default
    }
  }

  /** An authenticated identity as the identity provider hands it out. */
  datatype User = User(uid: string, email: string, displayName: string)

  /** The fixed reaction alphabet shown on every card (thumbs up, fire, heart, note, poo). */
  datatype Emoji = ThumbsUp | Fire | Heart | Note | Poo

  /** Reaction counters of an upload record; a missing key reads as 0. */
  type Counters = map<Emoji, int>

  /** One document of the `uploads` collection as the feed and the cards see it. */
  datatype Upload = Upload(
    id: string,
    userId: string,
    userName: string,
    kind: string,               // the `type` field
    timestamp: Option<int>,     // None while the server timestamp is still pending
    fileUrl: Option<string>,
    linkUrl: Option<string>,
    reactions: Option<Counters>)

  /** JavaScript truthiness of an optional string: present and non-empty. */
  predicate Truthy(s: Option<string>)
  {
    s.Some? && s.value != ""
  }

  /** JavaScript `a || b` on optional strings. */
  function OrElse(a: Option<string>, b: string): (r: string)
    ensures r != "" <==> Truthy(a) || b != ""
    ensures r == b || a == Some(r)
  {
    if Truthy(a) then a.value else b
  }

  predicate StartsWith(s: string, prefix: string)
  {
    |prefix| <= |s| && s[..|prefix|] == prefix
  }

  /** `s.includes(sub)`. */
  predicate Contains(s: string, sub: string)
  {
    StartsWith(s, sub) || (s != [] && Contains(s[1..], sub))
  }

  /** Whatever surrounds it, `sub` is found. */
  lemma {:induction false} ContainsInfix(a: string, sub: string, b: string)
    ensures Contains(a + sub + b, sub)
  {
    if a == [] {
      assert (a + sub + b)[..|sub|] == sub;
    } else {
      ContainsInfix(a[1..], sub, b);
      assert (a + sub + b)[1..] == a[1..] + sub + b;
    }
  }

  /** A string containing `sub + t` contains `sub`. */
  lemma {:induction false} ContainsPrefixOf(s: string, sub: string, t: string)
    requires Contains(s, sub + t)
    ensures Contains(s, sub)
  {
    if StartsWith(s, sub + t) {
      assert s[..|sub|] == (sub + t)[..|sub|] == sub;
    } else {
      ContainsPrefixOf(s[1..], sub, t);
    }
  }

  /** ASCII lower-casing of one character. */
  function LowerChar(c: char): char
  {
    if 'A' <= c <= 'Z' then (c as int + 32) as char else c
  }

  function Lower(s: string): (r: string)
    ensures |r| == |s|
    ensures forall i :: 0 <= i < |s| ==> r[i] == LowerChar(s[i])
  {
    if s == [] then [] else [LowerChar(s[0])] + Lower(s[1..])
  }

  /** `s.lastIndexOf(c)`: the last position of `c`, or -1. */
  function LastIndexOf(s: string, c: char): (r: int)
    ensures -1 <= r < |s|
    ensures r >= 0 ==> s[r] == c
    ensures forall j :: r < j < |s| ==> s[j] != c
  {
    if s == [] then -1
    else if s[|s| - 1] == c then |s| - 1
    else LastIndexOf(s[..|s| - 1], c)
  }

  /** JavaScript `s.length`: UTF-16 code units, two for a character outside the BMP. */
  function Utf16Length(s: string): (n: nat)
    ensures |s| <= n <= 2 * |s|
  {
    if s == [] then 0 else (if s[0] as int >= 0x1_0000 then 2 else 1) + Utf16Length(s[1..])
  }
}
