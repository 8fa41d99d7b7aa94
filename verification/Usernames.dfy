/** Choosing a username for an account created by an external sign-in. */
module Usernames {
  import opened Common

  const LIMIT: nat := 50

  // ----- The base name -----

  predicate Plain(c: char) {
    'a' <= c <= 'z' || '0' <= c <= '9' || c == '_' || c == '.' || c == '-'
  }

  predicate Edge(c: char) {
    c == '-' || c == '.' || c == '_'
  }

  /** Everything before the first `@`. */
  function LocalPart(email: string): string {
    if email == "" || email[0] == '@' then "" else [email[0]] + LocalPart(email[1..])
  }

  function Sanitized(s: string): (r: string)
    ensures |r| == |s| && forall i :: 0 <= i < |r| ==> Plain(r[i])
  {
    seq(|s|, i requires 0 <= i < |s| => if Plain(s[i]) then s[i] else '-')
  }

  function StripLeft(s: string): string {
    if s != "" && Edge(s[0]) then StripLeft(s[1..]) else s
  }

  function StripRight(s: string): string {
    if s != "" && Edge(s[|s| - 1]) then StripRight(s[..|s| - 1]) else s
  }

  /** Python's `s[:k]`, which counts from the end when `k` is negative. */
  function Prefix(s: string, k: int): (r: string)
    ensures k >= 0 ==> |r| <= k
    ensures |r| <= |s|
  {
    if k >= |s| then s else if k >= 0 then s[..k] else if |s| + k > 0 then s[..|s| + k] else ""
  }

  function Base(email: string, digest: string): string {
    var stripped := Prefix(StripRight(StripLeft(Sanitized(LocalPart(email)))), 30);
    var local := if stripped == "" then "oidc-user" else stripped;
    Prefix(local + "-" + Prefix(digest, 12), LIMIT)
  }

  /** The base name leaves room for a suffix of at least seven characters. */
  lemma BaseIsShort(email: string, digest: string)
    ensures |Base(email, digest)| <= 43
  {
  }

  const EDGES := "-._"

  lemma {:induction false} LocalPartExact(local: string, tail: string)
    requires '@' !in local && (tail == "" || tail[0] == '@')
    ensures LocalPart(local + tail) == local
  {
    if local == "" {
      assert local + tail == tail;
    } else {
      LocalPartExact(local[1..], tail);
      assert (local + tail)[1..] == local[1..] + tail;
    }
  }

  predicate Trimmed(core: string) {
    core == "" || (core[0] !in EDGES && core[|core| - 1] !in EDGES)
  }

  lemma {:induction false} StripLeftExact(a: string, s: string)
    requires (forall c :: c in a ==> c in EDGES) && (s == "" || s[0] !in EDGES)
    ensures StripLeft(a + s) == s
  {
    if a == "" {
      assert a + s == s;
    } else {
      assert a[0] in EDGES && Edge(a[0]);
      StripLeftExact(a[1..], s);
      assert (a + s)[1..] == a[1..] + s;
    }
  }

  lemma {:induction false} StripRightExact(s: string, b: string)
    requires (forall c :: c in b ==> c in EDGES) && (s == "" || s[|s| - 1] !in EDGES)
    ensures StripRight(s + b) == s
  {
    if b == "" {
      assert s + b == s;
    } else {
      var n := |b| - 1;
      assert b[n] in EDGES && Edge(b[n]);
      StripRightExact(s, b[..n]);
      assert (s + b)[..|s + b| - 1] == s + b[..n];
    }
  }

  /** The base name: the part of the address before the first `@`, with every other character replaced
      by a dash, trimmed and cut to 30, or a stock name if nothing remains; then a dash and 12 digits of
      the digest. */
  lemma BaseExact(local: string, tail: string, plain: string, a: string, core: string, b: string, digest: string)
    requires '@' !in local && (tail == "" || tail[0] == '@')
    requires |plain| == |local| && forall i :: 0 <= i < |local| ==>
      plain[i] == if 'a' <= local[i] <= 'z' || '0' <= local[i] <= '9' || local[i] in "_.-" then local[i] else '-'
    requires plain == a + core + b && Trimmed(core)
    requires (forall c :: c in a ==> c in EDGES) && (forall c :: c in b ==> c in EDGES)
    requires |digest| >= 12
    ensures Base(local + tail, digest) ==
      (if core == "" then "oidc-user" else if |core| <= 30 then core else core[..30]) + "-" + digest[..12]
  {
    LocalPartExact(local, tail);
    assert Sanitized(local) == plain;
    StripExact(a, core, b);
    BaseOfCore(local + tail, core, digest);
  }

  lemma StripExact(a: string, core: string, b: string)
    requires (forall c :: c in a ==> c in EDGES) && (forall c :: c in b ==> c in EDGES) && Trimmed(core)
    ensures StripRight(StripLeft(a + core + b)) == core
  {
    if core == "" {
      assert a + core + b == (a + b) + "";
      StripLeftExact(a + b, "");
    } else {
      assert a + core + b == a + (core + b);
      StripLeftExact(a, core + b);
      StripRightExact(core, b);
    }
  }

  lemma BaseOfCore(email: string, core: string, digest: string)
    requires StripRight(StripLeft(Sanitized(LocalPart(email)))) == core && |digest| >= 12
    ensures Base(email, digest) ==
      (if core == "" then "oidc-user" else if |core| <= 30 then core else core[..30]) + "-" + digest[..12]
  {
  }

  // ----- Numbered candidates -----

  function Digit(d: nat): char
    requires d < 10
  {
    ['0', '1', '2', '3', '4', '5', '6', '7', '8', '9'][d]
  }

  function Digits(n: nat): (s: string)
    ensures s != "" && forall i :: 0 <= i < |s| ==> s[i] != '-'
  {
    if n < 10 then [Digit(n)] else Digits(n / 10) + [Digit(n % 10)]
  }

  function Value(s: string): nat {
    if s == "" then 0
    else 10 * Value(s[..|s| - 1]) + if '0' <= s[|s| - 1] <= '9' then (s[|s| - 1] - '0') as nat else 0
  }

  lemma {:induction false} DigitsValue(n: nat)
    ensures Value(Digits(n)) == n
  {
    if n >= 10 {
      DigitsValue(n / 10);
      assert Digits(n)[..|Digits(n)| - 1] == Digits(n / 10);
    } else {
      assert Digits(n)[..0] == "";
    }
  }

  function Pow10(k: nat): nat {
    if k == 0 then 1 else 10 * Pow10(k - 1)
  }

  lemma {:induction false} DigitsLength(n: nat, k: nat)
    requires k > 0
    ensures |Digits(n)| <= k <==> n < Pow10(k)
  {
    if k == 1 {
      assert Pow10(1) == 10 * Pow10(0);
    } else if n >= 10 {
      DigitsLength(n / 10, k - 1);
    } else {
      PowGrows(k);
    }
  }

  lemma {:induction false} PowGrows(k: nat)
    requires k > 0
    ensures Pow10(k) >= 10
  {
    if k > 1 { PowGrows(k - 1); }
  }

  function Suffix(n: nat): string {
    "-" + Digits(n)
  }

  /** The name tried after `n` rejections. */
  function Candidate(base: string, n: nat): string {
    if n == 0 then base else Prefix(base, LIMIT - |Suffix(n)|) + Suffix(n)
  }

  lemma CandidateTail(base: string, n: nat)
    requires n > 0
    ensures var c, d := Candidate(base, n), Digits(n);
      |c| > |d| && c[|c| - |d| - 1] == '-' && c[|c| - |d|..] == d
  {
    var c := Candidate(base, n);
    var front := Prefix(base, LIMIT - |Suffix(n)|);
    assert c == front + "-" + Digits(n);
    assert c[|front|] == '-';
  }

  /** A numbered candidate is the base, cut so that the whole has at most 50 characters, and a dash and
      the number. */
  lemma CandidateShape(base: string, n: nat)
    requires 0 < n && |base| < LIMIT && n < Pow10(49)
    ensures Value(Digits(n)) == n && |Digits(n)| <= 49
    ensures var room := LIMIT - 1 - |Digits(n)|;
      Candidate(base, n) == (if |base| <= room then base else base[..room]) + "-" + Digits(n)
  {
    DigitsValue(n);
    DigitsLength(n, 49);
    ShapeOf(base, n);
  }

  lemma ShapeOf(base: string, n: nat)
    requires 0 < n && |Digits(n)| <= 49
    ensures var room := LIMIT - 1 - |Digits(n)|;
      Candidate(base, n) == (if |base| <= room then base else base[..room]) + "-" + Digits(n)
  {
    var room := LIMIT - 1 - |Digits(n)|;
    var front := if |base| <= room then base else base[..room];
    assert front + ("-" + Digits(n)) == front + "-" + Digits(n);
  }

  lemma NumberedDiffer(base: string, m: nat, n: nat)
    requires 0 < m && 0 < n && Candidate(base, m) == Candidate(base, n)
    ensures m == n
  {
    CandidateTail(base, m);
    CandidateTail(base, n);
    TailsAgree(Candidate(base, m), Digits(m), Digits(n));
    SameDigits(m, n);
  }

  lemma SameDigits(m: nat, n: nat)
    requires Digits(m) == Digits(n)
    ensures m == n
  {
    DigitsValue(m);
    DigitsValue(n);
  }

  lemma TailsAgree(c: string, d: string, e: string)
    requires |d| < |c| && c[|c| - |d| - 1] == '-' && c[|c| - |d|..] == d && '-' !in d
    requires |e| < |c| && c[|c| - |e| - 1] == '-' && c[|c| - |e|..] == e && '-' !in e
    ensures d == e
  {
    ShorterTail(c, d, e);
    ShorterTail(c, e, d);
  }

  /** A dash before the shorter of two tails lies inside the longer one. */
  lemma ShorterTail(c: string, d: string, e: string)
    requires |d| < |c| && |e| <= |c| && c[|c| - |d| - 1] == '-' && c[|c| - |e|..] == e
    ensures |d| < |e| ==> e[|e| - |d| - 1] == '-'
  {
    assert |d| < |e| ==> c[|c| - |e|..][|e| - |d| - 1] == c[|c| - |d| - 1];
  }

  /** Truncation never makes two candidates equal. */
  lemma CandidatesDiffer(base: string, m: nat, n: nat)
    requires |base| < LIMIT && m != n
    ensures Candidate(base, m) != Candidate(base, n)
  {
    if m > 0 && n > 0 {
      if Candidate(base, m) == Candidate(base, n) { NumberedDiffer(base, m, n); }
    } else {
      NumberedIsLonger(base, if m > 0 then m else n);
    }
  }

  lemma NumberedIsLonger(base: string, n: nat)
    requires |base| < LIMIT && n > 0
    ensures |Candidate(base, n)| > |base|
  {
  }

  /** A candidate fits the column exactly while its number has at most 49 digits. */
  lemma CandidateFits(base: string, n: nat)
    requires |base| < LIMIT
    ensures |Candidate(base, n)| <= LIMIT <==> n < Pow10(49)
  {
    DigitsLength(n, 49);
    if n == 0 { PowGrows(49); }
  }

  // ----- The search -----

  predicate AllTaken(base: string, n: nat, taken: set<string>) {
    forall i :: 0 <= i < n ==> Candidate(base, i) in taken
  }

  lemma TakenBound(base: string, n: nat, taken: set<string>)
    requires |base| < LIMIT && AllTaken(base, n, taken)
    ensures n <= |taken|
  {
    var tried := seq(n, i requires 0 <= i < n => Candidate(base, i));
    forall i, j | 0 <= i < j < n ensures tried[i] != tried[j] {
      CandidatesDiffer(base, i, j);
    }
    DistinctCardinality(tried);
    SubsetCardinality(Elements(tried), taken);
  }

  /** Finds the first free candidate after at most as many rejections as there are names. */
  method NewUsername(base: string, taken: set<string>) returns (candidate: string, ghost rejected: nat)
    requires |base| < LIMIT
    ensures candidate !in taken
    ensures rejected <= |taken| && AllTaken(base, rejected, taken) && candidate == Candidate(base, rejected)
    ensures |taken| < Pow10(49) ==> |candidate| <= LIMIT
  {
    candidate := base;
    var suffix := 1;
    while candidate in taken
      invariant suffix >= 1 && candidate == Candidate(base, suffix - 1) && AllTaken(base, suffix - 1, taken)
      decreases |taken| - suffix
    {
      assert AllTaken(base, suffix, taken);
      TakenBound(base, suffix, taken);
      var suffixText := "-" + Digits(suffix);
      candidate := Prefix(base, LIMIT - |suffixText|) + suffixText;
      suffix := suffix + 1;
    }
    rejected := suffix - 1;
    TakenBound(base, rejected, taken);
    CandidateFits(base, rejected);
  }
}
