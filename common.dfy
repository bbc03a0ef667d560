/** Types and string helpers shared by the branding registry, the card driver and the title renderer. */
module Common {

  datatype Option<+T> = None | Some(value: T)

  /** How a call into a collaborator (a promise, or a function that may throw) settled. */
  datatype Outcome<+T> = Ok(value: T) | Threw(error: string)

  /** The page layouts in which a video's branding can appear. */
  datatype BrandingLocation = Related | Watch | Endcards | Autoplay | EndRecommendations

  /** The numeric enum's members, 0 to 4 in declaration order; any other number names no location. */
  function LocationFromCode(code: int): (r: Option<BrandingLocation>)
    ensures r.Some? <==> 0 <= code < 5
  {
    if code == 0 then Some(Related)
    else if code == 1 then Some(Watch)
    else if code == 2 then Some(Endcards)
    else if code == 3 then Some(Autoplay)
    else if code == 4 then Some(EndRecommendations)
    else None
  }

  /** A location's value in the numeric enum, counting its members from 0 in declaration order. */
  function LocationCode(loc: BrandingLocation): (c: int)
    ensures 0 <= c < 5
    ensures LocationFromCode(c) == Some(loc)
  {
    match loc
    case Related => 0
    case Watch => 1
    case Endcards => 2
    case Autoplay => 3
    case EndRecommendations => 4
  }

  /** An eleven-character video identifier; used as a registry key. */
  type VideoID = string

  /** What the title data source returns for a video: the text and whether it is the platform's own. */
  datatype TitleResult = TitleResult(title: string, original: bool)

  /** A JavaScript string value that is neither missing nor empty. */
  predicate Truthy(s: Option<string>)
  {
    s.Some? && s.value != ""
  }

  // ---------------------------------------------------------------------------
  // Substring search, as `String.prototype.match` with a literal pattern uses it
  // ---------------------------------------------------------------------------

  predicate OccursAt(s: string, t: string, i: int)
  {
    0 <= i && i + |t| <= |s| && s[i..i + |t|] == t
  }

  ghost predicate Occurs(s: string, t: string)
  {
    exists i :: OccursAt(s, t, i)
  }

  /** Scans `s` from the left for `t`. */
  function Contains(s: string, t: string): (r: bool)
    ensures r <==> Occurs(s, t)
    decreases |s|
  {
    if |s| < |t| then
      assert forall i :: !OccursAt(s, t, i);
      false
    else if s[..|t|] == t then
      assert OccursAt(s, t, 0);
      true
    else
      OccursStep(s, t);
      Contains(s[1..], t)
  }

  /** An occurrence is either at the front or an occurrence in the tail. */
  lemma OccursStep(s: string, t: string)
    requires |t| <= |s| && s != []
    ensures Occurs(s, t) <==> (s[..|t|] == t || Occurs(s[1..], t))
  {
    if Occurs(s, t) && s[..|t|] != t {
      var i :| OccursAt(s, t, i);
      assert s[1..][i - 1..i - 1 + |t|] == s[i..i + |t|];
      assert OccursAt(s[1..], t, i - 1);
    }
    if s[..|t|] == t {
      assert OccursAt(s, t, 0);
    }
    if Occurs(s[1..], t) {
      var i :| OccursAt(s[1..], t, i);
      assert s[1..][i..i + |t|] == s[i + 1..i + 1 + |t|];
      assert OccursAt(s, t, i + 1);
    }
  }

  /** The prefix one longer than `s[..i]` is that prefix and `s[i]`. */
  lemma TakeStep<T>(s: seq<T>, i: nat)
    requires i < |s|
    ensures s[..i + 1][..i] == s[..i] && s[..i + 1][i] == s[i]
  {
  }

  lemma LastSplit<T>(s: seq<T>)
    requires s != []
    ensures s == s[..|s| - 1] + [s[|s| - 1]]
  {
  }

  predicate EndsWith(s: string, t: string)
  {
    |t| <= |s| && s[|s| - |t|..] == t
  }

  // ---------------------------------------------------------------------------
  // `String.prototype.trim`: strips ECMAScript WhiteSpace and LineTerminator code points
  // ---------------------------------------------------------------------------

  predicate IsTrimmable(c: char)
  {
    || c == '\t' || c == '\n' || c == '\U{000B}' || c == '\U{000C}' || c == '\r' || c == ' '
    || c == '\U{00A0}' || c == '\U{1680}' || ('\U{2000}' <= c <= '\U{200A}')
    || c == '\U{2028}' || c == '\U{2029}' || c == '\U{202F}' || c == '\U{205F}'
    || c == '\U{3000}' || c == '\U{FEFF}'
  }

  function TrimStart(s: string): (r: string)
    ensures |r| <= |s| && r == s[|s| - |r|..]
    ensures forall j | 0 <= j < |s| - |r| :: IsTrimmable(s[j])
    ensures r == [] || !IsTrimmable(r[0])
    decreases |s|
  {
    if |s| > 0 && IsTrimmable(s[0]) then TrimStart(s[1..]) else s
  }

  function TrimEnd(s: string): (r: string)
    ensures |r| <= |s| && r == s[..|r|]
    ensures forall j | |r| <= j < |s| :: IsTrimmable(s[j])
    ensures r == [] || !IsTrimmable(r[|r| - 1])
    decreases |s|
  {
    if |s| > 0 && IsTrimmable(s[|s| - 1]) then TrimEnd(s[..|s| - 1]) else s
  }

  /** `r` is the slice of `s` at `i`, with only trimmable characters before and after it. */
  ghost predicate TrimmedAt(s: string, r: string, i: int)
  {
    && OccursAt(s, r, i)
    && (forall k | 0 <= k < i :: IsTrimmable(s[k]))
    && (forall k | i + |r| <= k < |s| :: IsTrimmable(s[k]))
  }

  /** The trimmed text is a slice of the input that neither starts nor ends with a trimmable character. */
  function Trim(s: string): (r: string)
    ensures Occurs(s, r)
    ensures r == [] || (!IsTrimmable(r[0]) && !IsTrimmable(r[|r| - 1]))
  {
    var a := TrimStart(s);
    var r := TrimEnd(a);
    PrefixOfSuffix(s, a, r);
    r
  }

  /** A prefix of a suffix of `s` is a slice of `s`, at the suffix's start. */
  lemma PrefixOfSuffix(s: string, a: string, r: string)
    requires |a| <= |s| && a == s[|s| - |a|..]
    requires |r| <= |a| && r == a[..|r|]
    ensures OccursAt(s, r, |s| - |a|)
    ensures r != [] ==> r[0] == a[0]
  {
  }

  /** Trimming cuts off nothing but trimmable characters, at both ends of the input. */
  lemma TrimSlice(s: string)
    ensures TrimmedAt(s, Trim(s), |s| - |TrimStart(s)|)
  {
    var a := TrimStart(s);
    var r := TrimEnd(a);
    PrefixOfSuffix(s, a, r);
    TrimmableTail(s, a, r);
    assert r == Trim(s);
  }

  /** What follows a prefix of a suffix of `s` is trimmable in `s` when it is in the suffix. */
  lemma TrimmableTail(s: string, a: string, r: string)
    requires |a| <= |s| && a == s[|s| - |a|..] && |r| <= |a|
    requires forall j | |r| <= j < |a| :: IsTrimmable(a[j])
    ensures forall k | |s| - |a| + |r| <= k < |s| :: IsTrimmable(s[k])
  {
    forall k | |s| - |a| + |r| <= k < |s|
      ensures IsTrimmable(s[k])
    {
      assert s[k] == a[k - (|s| - |a|)];
    }
  }

  lemma {:induction false} TrimStartOfUntrimmable(s: string)
    requires s == [] || !IsTrimmable(s[0])
    ensures TrimStart(s) == s
  {
  }

  /** A text that neither starts nor ends with a trimmable character is its own trim. */
  lemma {:induction false} TrimOfUntrimmableEnds(s: string)
    requires s == [] || (!IsTrimmable(s[0]) && !IsTrimmable(s[|s| - 1]))
    ensures Trim(s) == s
  {
    TrimStartOfUntrimmable(s);
    assert TrimStart(s) == s;
    assert TrimEnd(s) == s;
  }

  /** Trimming is idempotent. */
  lemma {:induction false} TrimIdempotent(s: string)
    ensures Trim(Trim(s)) == Trim(s)
  {
    TrimOfUntrimmableEnds(Trim(s));
  }
}
