/** What a handle may be, and the free one a Discord name turns into. */
module Handles {
  import opened Sequences
  import opened Sorting

  predicate HandleChar(c: char) {
    'a' <= c <= 'z' || '0' <= c <= '9' || c == '.' || c == '_'
  }

  predicate IsDigit(c: char) { '0' <= c <= '9' }

  predicate IsPunctuation(c: char) { c == '.' || c == '_' }

  predicate AllDigits(s: string) { forall c | c in s :: IsDigit(c) }

  predicate AllPunctuation(s: string) { forall c | c in s :: IsPunctuation(c) }

  predicate ValidHandle(s: string) {
    3 <= |s| <= 32 && (forall c | c in s :: HandleChar(c)) && !AllDigits(s) && !AllPunctuation(s)
  }

  method ValidateHandle(handle: string) returns (ok: bool)
    ensures ok <==> ValidHandle(handle)
  {
    if |handle| < 3 || |handle| > 32 { return false; }
    var digits, punctuation := true, true;
    for i := 0 to |handle|
      invariant forall k | 0 <= k < i :: HandleChar(handle[k])
      invariant digits <==> forall k | 0 <= k < i :: IsDigit(handle[k])
      invariant punctuation <==> forall k | 0 <= k < i :: IsPunctuation(handle[k])
    {
      var c := handle[i];
      if (c < 'a' || c > 'z') && (c < '0' || c > '9') && c != '.' && c != '_' {
        assert handle[i] in handle && !HandleChar(handle[i]);
        return false;
      }
      if c < '0' || c > '9' { digits := false; }
      if c != '.' && c != '_' { punctuation := false; }
    }
    assert forall k | 0 <= k < |handle| :: handle[k] in handle;
    return !(digits || punctuation);
  }

  /** The characters of a name a handle may hold, each lowered first. */
  function Usable(lower: char -> char, name: string): string {
    if name == "" then ""
    else
      var c := lower(name[|name| - 1]);
      Usable(lower, name[..|name| - 1]) + (if HandleChar(c) then [c] else "")
  }

  function Cut(s: string): (cut: string)
    ensures |cut| <= 32 && cut <= s
  {
    if |s| <= 32 then s else s[..32]
  }

  function Padded(s: string): string { if |s| < 3 then s + "..."[..3 - |s|] else s }

  /** The seed a Discord name is turned into. */
  function SeedOf(lower: char -> char, username: string): string {
    var seed := Padded(Cut(Usable(lower, username)));
    if ValidHandle(seed) then seed else Cut(if AllDigits(seed) then "user." + seed else "creator")
  }

  /** The first of a name's usable characters, each lowered, as many as a handle may
      have. */
  function Kept(lower: char -> char, name: string): string {
    var usable := Filter(HandleChar, Map(lower, name));
    if |usable| <= 32 then usable else usable[..32]
  }

  lemma {:induction false} UsableIs(lower: char -> char, name: string)
    ensures Usable(lower, name) == Filter(HandleChar, Map(lower, name))
  {
    if name != "" {
      var n := |name| - 1;
      UsableIs(lower, name[..n]);
      assert name == name[..n] + [name[n]];
      MapConcat(lower, name[..n], [name[n]]);
      assert Map(lower, [name[n]]) == [lower(name[n])];
      FilterConcat(HandleChar, Map(lower, name[..n]), [lower(name[n])]);
      FilterSingle(HandleChar, lower(name[n]));
    }
  }

  lemma {:induction false} DotsOnly(s: string)
    requires |s| < 3
    ensures AllPunctuation(s) <==> AllPunctuation(s + "..."[..3 - |s|])
    ensures !AllDigits(s + "..."[..3 - |s|])
  {
    var dots := "..."[..3 - |s|];
    assert dots[0] in s + dots && !IsDigit(dots[0]);
    forall c ensures c in s + dots <==> c in s || c == '.' { assert c == '.' ==> c == dots[0]; }
  }

  /** What a name is turned into: its usable characters, drawn out with dots where
      they are too few, behind a word where they are all digits, and another word
      where they are all punctuation. */
  lemma {:induction false} SeedSays(lower: char -> char, name: string)
    ensures var kept := Kept(lower, name);
      SeedOf(lower, name) ==
        if AllPunctuation(kept) then "creator"
        else if |kept| < 3 then kept + "..."[..3 - |kept|]
        else if AllDigits(kept) then "user." + kept[..if |kept| < 27 then |kept| else 27]
        else kept
  {
    UsableIs(lower, name);
    var kept := Kept(lower, name);
    KeptIsUsable(lower, name);
    hide Filter;
    hide Usable;
    hide Map;
    assert SeedOf(lower, name) == SeedFrom(kept);
    SeedFromSays(kept);
    hide SeedOf;
    hide Kept;
  }

  /** The seed once the usable characters are taken. */
  function SeedFrom(kept: string): string {
    if ValidHandle(Padded(kept)) then Padded(kept) else Cut(if AllDigits(Padded(kept)) then "user." + Padded(kept) else "creator")
  }

  lemma {:induction false} KeptIsUsable(lower: char -> char, name: string)
    ensures |Kept(lower, name)| <= 32 && forall c | c in Kept(lower, name) :: HandleChar(c)
  {
    FilterHas(HandleChar, Map(lower, name));
    hide Filter;
    hide HandleChar;
  }

  lemma {:induction false} SeedFromSays(kept: string)
    requires |kept| <= 32 && forall c | c in kept :: HandleChar(c)
    ensures SeedFrom(kept) ==
      if AllPunctuation(kept) then "creator"
      else if |kept| < 3 then kept + "..."[..3 - |kept|]
      else if AllDigits(kept) then "user." + kept[..if |kept| < 27 then |kept| else 27]
      else kept
  {
    assert HandleChar('.');
    hide HandleChar;
    if |kept| < 3 {
      DotsOnly(kept);
      var dots := "..."[..3 - |kept|];
      forall c | c in kept + dots ensures HandleChar(c) { assert c in kept || c == '.'; }
    } else if AllPunctuation(kept) {
      assert kept[0] in kept && !IsDigit(kept[0]);
    } else if AllDigits(kept) {
      assert |kept| > 27 ==> ("user." + kept)[..32] == "user." + kept[..27];
      assert kept[..|kept|] == kept;
    }
  }

  lemma {:induction false} UsableGrows(lower: char -> char, name: string, i: nat)
    requires i <= |name|
    ensures Usable(lower, name[..i]) <= Usable(lower, name)
    decreases |name|
  {
    if i < |name| {
      assert name[..|name| - 1][..i] == name[..i];
      UsableGrows(lower, name[..|name| - 1], i);
    } else {
      assert name[..i] == name;
    }
  }

  /** A name that may be a handle is its own seed, where lowering leaves the
      characters of handles alone. */
  lemma {:induction false} HandlesSeedThemselves(lower: char -> char, name: string)
    requires ValidHandle(name) && forall c | HandleChar(c) :: lower(c) == c
    ensures SeedOf(lower, name) == name
  {
    assert forall k | 0 <= k < |name| :: name[k] in name;
    AllUsable(lower, name);
  }

  lemma {:induction false} AllUsable(lower: char -> char, name: string)
    requires forall k | 0 <= k < |name| :: HandleChar(name[k]) && lower(name[k]) == name[k]
    ensures Usable(lower, name) == name
  {
    if name != "" {
      AllUsable(lower, name[..|name| - 1]);
      assert lower(name[|name| - 1]) == name[|name| - 1];
      assert name == name[..|name| - 1] + [name[|name| - 1]];
    }
  }

  method TakeUsable(lower: char -> char, username: string) returns (seed: string)
    ensures seed == Cut(Usable(lower, username)) && forall k | 0 <= k < |seed| :: HandleChar(seed[k])
  {
    seed := "";
    var i := 0;
    while i < |username|
      invariant i <= |username| && seed == Usable(lower, username[..i]) && |seed| < 32
      invariant forall k | 0 <= k < |seed| :: HandleChar(seed[k])
    {
      var c := lower(username[i]);
      assert username[..i + 1][..i] == username[..i];
      if HandleChar(c) { seed := seed + [c]; }
      i := i + 1;
      if |seed| == 32 { break; }
    }
    hide Usable;
    hide HandleChar;
    UsableGrows(lower, username, i);
    assert username[..|username|] == username;
  }

  method OnlyDigits(s: string) returns (digits: bool)
    ensures digits <==> AllDigits(s)
  {
    digits := true;
    for i := 0 to |s|
      invariant digits <==> forall k | 0 <= k < i :: IsDigit(s[k])
    {
      if !IsDigit(s[i]) { digits := false; }
    }
    assert forall k | 0 <= k < |s| :: s[k] in s;
  }

  /** The seed is a handle, whatever the name holds. */
  method Seed(lower: char -> char, username: string) returns (seed: string)
    ensures seed == SeedOf(lower, username) && ValidHandle(seed)
  {
    hide Usable;
    hide ValidHandle;
    hide AllDigits;
    seed := TakeUsable(lower, username);
    if |seed| < 3 { seed := seed + "..."[..3 - |seed|]; }
    assert forall k | 0 <= k < |seed| :: HandleChar(seed[k]);
    var ok := ValidateHandle(seed);
    if !ok {
      var digits := OnlyDigits(seed);
      seed := if digits then "user." + seed else "creator";
      UserIsValid(seed);
    }
    seed := if |seed| <= 32 then seed else seed[..32];
  }

  /** A name that starts with a letter is neither all digits nor all punctuation,
      however it is cut short. */
  lemma {:induction false} UserIsValid(s: string)
    requires 3 <= |s| && (forall k | 0 <= k < |s| :: HandleChar(s[k])) && 'a' <= s[0] <= 'z'
    ensures ValidHandle(if |s| <= 32 then s else s[..32])
  {
    var cut := if |s| <= 32 then s else s[..32];
    assert cut[0] in cut && !IsDigit(cut[0]) && !IsPunctuation(cut[0]);
  }

  // ---- suffixes -----------------------------------------------------------

  function Digit(n: nat): char
    requires n < 10
  {
    "0123456789"[n]
  }

  function Decimal(n: nat): (s: string)
    ensures s != "" && forall k | 0 <= k < |s| :: IsDigit(s[k])
  {
    if n < 10 then [Digit(n)] else Decimal(n / 10) + [Digit(n % 10)]
  }

  function Power10(k: nat): nat { if k == 0 then 1 else 10 * Power10(k - 1) }

  lemma {:induction false} DecimalLength(n: nat, k: nat)
    requires 0 < k && n < Power10(k)
    ensures |Decimal(n)| <= k
    decreases k
  {
    assert Power10(1) == 10 * Power10(0);
    if n >= 10 {
      DecimalLength(n / 10, k - 1);
    }
  }

  lemma {:induction false} DecimalTells(a: nat, b: nat)
    requires Decimal(a) == Decimal(b)
    ensures a == b
    decreases a
  {
    DecimalEnds(a);
    DecimalEnds(b);
    if a >= 10 && b >= 10 {
      var s := Decimal(a);
      assert s[..|s| - 1] == Decimal(a / 10) && s[..|s| - 1] == Decimal(b / 10);
      DecimalTells(a / 10, b / 10);
    }
  }

  /** The last digit, and whether there are others before it. */
  lemma {:induction false} DecimalEnds(n: nat)
    ensures Decimal(n)[|Decimal(n)| - 1] == Digit(n % 10)
    ensures |Decimal(n)| == 1 <==> n < 10
    ensures forall m: nat :: Digit(n % 10) == Digit(m % 10) ==> n % 10 == m % 10
  {
    forall m: nat | Digit(n % 10) == Digit(m % 10) ensures n % 10 == m % 10 {
      DigitTells(n % 10, m % 10);
    }
  }

  lemma {:induction false} DigitTells(a: nat, b: nat)
    requires a < 10 && b < 10 && Digit(a) == Digit(b)
    ensures a == b
  {
    var digits := "0123456789";
    assert digits[a] as int == '0' as int + a && digits[b] as int == '0' as int + b;
  }

  function Ending(suffix: nat): string { "." + Decimal(suffix) }

  /** The handle tried for a suffix: the seed itself, then ever higher numbers. */
  function Candidate(base: string, suffix: nat): string {
    if suffix <= 1 then base
    else
      var ending := Ending(suffix);
      base[..if |base| < 32 - |ending| then |base| else if |ending| < 32 then 32 - |ending| else 0] + ending
  }

  lemma {:induction false} CandidateIsValid(base: string, suffix: nat)
    requires ValidHandle(base) && suffix < Power10(28)
    ensures ValidHandle(Candidate(base, suffix))
    ensures suffix <= 1 ==> Candidate(base, suffix) == base
    ensures suffix > 1 ==>
      exists k :: 0 <= k <= |base| && Candidate(base, suffix) == base[..k] + "." + Decimal(suffix)
                  && (k == |base| || |Candidate(base, suffix)| == 32)
  {
    if suffix > 1 {
      DecimalLength(suffix, 28);
      hide Power10;
      var ending, c := Ending(suffix), Candidate(base, suffix);
      var n := |c| - |ending|;
      assert c[n..] == ending && c[..n] == base[..n] && n >= 1;
      forall x | x in c ensures HandleChar(x) {
        var k :| 0 <= k < |c| && c[k] == x;
        if k < n { assert c[k] == base[k] && base[k] in base; } else if k > n { assert IsDigit(ending[k - n]); }
      }
      assert c[n] == '.' && c[n] in c && IsDigit(ending[1]) && c[n + 1] == ending[1] && c[n + 1] in c;
      assert !IsDigit(c[n]) && !IsPunctuation(c[n + 1]);
      assert c == base[..n] + "." + Decimal(suffix);
    }
  }

  /** Where the last dot stands. */
  function LastDot(s: string): nat {
    if s == "" then 0 else if s[|s| - 1] == '.' then |s| - 1 else LastDot(s[..|s| - 1])
  }

  lemma {:induction false} LastDotOf(p: string, digits: string)
    requires forall k | 0 <= k < |digits| :: IsDigit(digits[k])
    ensures LastDot(p + "." + digits) == |p|
    decreases |digits|
  {
    var s := p + "." + digits;
    if digits == "" {
      assert s == p + ".";
    } else {
      var n := |digits| - 1;
      assert s[|s| - 1] == digits[n] && s[..|s| - 1] == p + "." + digits[..n];
      LastDotOf(p, digits[..n]);
    }
  }

  /** Candidates with different suffixes are different. */
  lemma {:induction false} CandidatesDiffer(base: string, a: nat, b: nat)
    requires 1 < a && 1 < b && Candidate(base, a) == Candidate(base, b)
    ensures a == b
  {
    var s := Candidate(base, a);
    var p, q := s[..|s| - |Ending(a)|], s[..|s| - |Ending(b)|];
    assert s == p + "." + Decimal(a) && s == q + "." + Decimal(b);
    LastDotOf(p, Decimal(a));
    LastDotOf(q, Decimal(b));
    assert s[|p| + 1..] == Decimal(a) && s[|q| + 1..] == Decimal(b);
    DecimalTells(a, b);
  }

  /** The first candidate that is free. */
  ghost predicate FirstFree(base: string, taken: set<string>, handle: string, suffix: nat) {
    && suffix >= 1 && handle == Candidate(base, suffix) && handle !in taken
    && forall k: nat | 1 <= k < suffix :: Candidate(base, k) in taken
  }

  /** Looks for the first handle that is free; the search ends because no two
      numbered candidates are the same. */
  method FreeHandle(lower: char -> char, username: string, taken: set<string>)
    returns (handle: string, ghost chosen: nat)
    ensures FirstFree(SeedOf(lower, username), taken, handle, chosen)
    ensures |taken| < Power10(27) ==> ValidHandle(handle)
  {
    hide SeedOf;
    hide ValidHandle;
    hide Candidate;
    var base := Seed(lower, username);
    var suffix: nat := 1;
    ghost var tried: set<string> := {};
    assert Power10(28) == 10 * Power10(27);
    hide Power10;
    while true
      invariant 1 <= suffix <= |tried| + 2
      invariant tried <= taken && |tried| <= |taken|
      invariant forall c | c in tried :: exists k: nat :: 1 < k < suffix && c == Candidate(base, k)
      invariant forall k: nat | 1 <= k < suffix :: Candidate(base, k) in taken
      decreases |taken| - |tried|, if suffix == 1 then 1 else 0
    {
      var candidate := Candidate(base, suffix);
      if |taken| < Power10(27) { CandidateIsValid(base, suffix); }
      if candidate !in taken { return candidate, suffix; }
      if suffix > 1 {
        if candidate in tried {
          var k: nat :| 1 < k < suffix && candidate == Candidate(base, k);
          CandidatesDiffer(base, k, suffix);
        }
        TriedGrows(tried, candidate, taken);
        tried := tried + {candidate};
      }
      suffix := suffix + 1;
    }
  }

  lemma {:induction false} TriedGrows(tried: set<string>, c: string, taken: set<string>)
    requires tried <= taken && c in taken && c !in tried
    ensures |tried + {c}| == |tried| + 1 <= |taken|
  {
    var rest := taken - (tried + {c});
    assert taken == (tried + {c}) + rest;
  }
}
