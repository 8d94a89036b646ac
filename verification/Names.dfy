/** Kubernetes names: how text becomes an RFC 1123 label, and what of it can be read back. */
module Labels {
  predicate IsDigit(c: char) {
    '0' <= c <= '9'
  }

  predicate Alnum(c: char) {
    'a' <= c <= 'z' || IsDigit(c)
  }

  predicate LabelChar(c: char) {
    Alnum(c) || c == '-'
  }

  predicate AllLabelChars(s: string) {
    forall i :: 0 <= i < |s| ==> LabelChar(s[i])
  }

  predicate NoDouble(s: string) {
    forall i :: 0 <= i < |s| - 1 ==> s[i] != '-' || s[i + 1] != '-'
  }

  /** Begins and ends with a letter or digit. */
  predicate Capped(s: string) {
    s != [] && s[0] != '-' && s[|s| - 1] != '-'
  }

  /** A DNS label of RFC 1123 section 2.1, as Kubernetes checks it. */
  predicate Label(s: string) {
    AllLabelChars(s) && Capped(s) && |s| <= 63
  }

  /** What one character contributes after `lower()` and the substitution: letters and digits as
      they are, U+212A and U+0130 by their lower cases, anything else a dash. */
  function Letter(c: char): (r: string)
    ensures r != [] && AllLabelChars(r)
    ensures LabelChar(c) ==> r == [c]
  {
    if LabelChar(c) then [c]
    else if 'A' <= c <= 'Z' then [((c as int) + 32) as char]
    else if c == '\U{212a}' then "k"
    else if c == '\U{130}' then "i-"
    else "-"
  }

  function Letters(name: string): (r: string)
    ensures AllLabelChars(r)
  {
    if name == [] then [] else Letter(name[0]) + Letters(name[1..])
  }

  function Collapse(s: string): (r: string)
    ensures AllLabelChars(s) ==> AllLabelChars(r)
    ensures NoDouble(r) && (s == [] <==> r == []) && (s != [] ==> r[0] == s[0])
  {
    if |s| <= 1 then s
    else if s[0] == '-' && s[1] == '-' then Collapse(s[1..])
    else [s[0]] + Collapse(s[1..])
  }

  function LStrip(s: string): (r: string)
    ensures AllLabelChars(s) ==> AllLabelChars(r)
    ensures NoDouble(s) ==> NoDouble(r)
    ensures r != [] ==> r[0] != '-'
  {
    if s != [] && s[0] == '-' then LStrip(s[1..]) else s
  }

  function RStrip(s: string): (r: string)
    ensures r <= s
    ensures r != [] ==> r[|r| - 1] != '-'
  {
    if s != [] && s[|s| - 1] == '-' then RStrip(s[..|s| - 1]) else s
  }

  function Take(s: string, n: nat): (r: string)
    ensures r <= s && |r| <= n
  {
    if |s| <= n then s else s[..n]
  }

  const DEFAULT := "step"

  /** `sanitize_k8s_name`. */
  function Sanitize(name: string, maxLen: nat): string {
    var s := RStrip(Take(RStrip(LStrip(Collapse(Letters(name)))), maxLen));
    if s == [] then DEFAULT else s
  }

  lemma PrefixKeepsShape(p: string, s: string)
    requires p <= s
    ensures AllLabelChars(s) ==> AllLabelChars(p)
    ensures NoDouble(s) ==> NoDouble(p)
    ensures p != [] ==> p[0] == s[0]
  {
    assert p == s[..|p|];
  }

  /** Whatever the name, the result is a label of the length asked for. */
  lemma SanitizedIsALabel(name: string, maxLen: nat)
    requires maxLen >= |DEFAULT|
    ensures var s := Sanitize(name, maxLen);
            AllLabelChars(s) && NoDouble(s) && Capped(s) && |s| <= maxLen
  {
    var clean := LStrip(Collapse(Letters(name)));
    var stripped := RStrip(clean);
    var taken := Take(stripped, maxLen);
    PrefixKeepsShape(stripped, clean);
    PrefixKeepsShape(taken, stripped);
    PrefixKeepsShape(RStrip(taken), taken);
    assert AllLabelChars(DEFAULT) && NoDouble(DEFAULT) && Capped(DEFAULT);
  }

  lemma {:induction false} CleanIsKept(s: string)
    requires AllLabelChars(s)
    ensures Letters(s) == s
    decreases |s|
  {
    if s != [] {
      CleanIsKept(s[1..]);
    }
  }

  lemma {:induction false} SingleDashesAreKept(s: string)
    requires NoDouble(s)
    ensures Collapse(s) == s
    decreases |s|
  {
    if |s| > 1 {
      assert NoDouble(s[1..]);
      SingleDashesAreKept(s[1..]);
    }
  }

  /** A label with no double dash is left alone, so sanitizing twice is sanitizing once. */
  lemma LabelsAreFixed(s: string, maxLen: nat)
    requires AllLabelChars(s) && NoDouble(s) && Capped(s) && |s| <= maxLen
    ensures Sanitize(s, maxLen) == s
  {
    CleanIsKept(s);
    SingleDashesAreKept(s);
    hide Letters, Collapse, AllLabelChars, NoDouble;
    assert LStrip(s) == s;
    assert RStrip(s) == s;
    assert Take(s, maxLen) == s;
  }

  // ---------------------------------------------------------------- a prefix survives

  /** `p` stands at the head of `s` as a whole word. */
  predicate Heads(p: string, s: string) {
    p <= s && (|s| > |p| ==> s[|p|] == '-')
  }

  lemma {:induction false} LettersConcat(a: string, b: string)
    ensures Letters(a + b) == Letters(a) + Letters(b)
    decreases |a|
  {
    if a == [] {
      assert a + b == b;
    } else {
      assert (a + b)[1..] == a[1..] + b;
      LettersConcat(a[1..], b);
    }
  }

  /** The same letter, in either case. */
  predicate SameLetter(a: char, b: char) {
    || a == b
    || ('a' <= a <= 'z' && b as int == a as int - 32) || ('a' <= b <= 'z' && a as int == b as int - 32)
    || (a in {'k', 'K', '\U{212a}'} && b in {'k', 'K', '\U{212a}'})
  }

  /** Case is forgotten, and with it the Kelvin sign that lowers to a `k`. */
  lemma {:induction false} CaseIsForgotten(s: string, t: string, maxLen: nat)
    requires |s| == |t| && forall k :: 0 <= k < |s| ==> SameLetter(s[k], t[k])
    ensures Letters(s) == Letters(t) && Sanitize(s, maxLen) == Sanitize(t, maxLen)
  {
    hide Collapse, LStrip, RStrip;
    if s != [] {
      assert SameLetter(s[0], t[0]);
      assert Letter(s[0]) == Letter(t[0]);
      CaseIsForgotten(s[1..], t[1..], maxLen);
    }
  }

  /** Whatever is no letter or digit in either case becomes a hyphen, and nothing else does but the
      dot that the lower case of U+0130 leaves. */
  lemma OthersBecomeHyphens(c: char)
    ensures Letter(c) == "-" <==>
      !IsDigit(c) && !('a' <= c <= 'z') && !('A' <= c <= 'Z') && c != '\U{212a}' && c != '\U{130}'
    ensures Letter('\U{130}') == Letter('I') + "-"
  {
  }

  lemma CollapseStep(p: string)
    requires NoDouble(p) && |p| > 1
    ensures NoDouble(p[1..]) && [p[0]] + p[1..] == p
  {
  }

  lemma {:induction false} CollapseKeepsAHead(p: string, t: string)
    requires NoDouble(p) && p != [] && p[|p| - 1] != '-'
    ensures Collapse(p + t) == p + Collapse(t)
    decreases |p|
  {
    var s := p + t;
    if t == [] {
      assert s == p && Collapse(t) == t;
      SingleDashesAreKept(p);
    } else if |p| == 1 {
      assert s[0] == p[0] && s[1..] == t;
    } else {
      assert s[0] == p[0] && s[1] == p[1] && (p[0] != '-' || p[1] != '-');
      assert s[1..] == p[1..] + t;
      CollapseStep(p);
      CollapseKeepsAHead(p[1..], t);
      calc {
        Collapse(s);
        [p[0]] + Collapse(s[1..]);
        [p[0]] + (p[1..] + Collapse(t));
        ([p[0]] + p[1..]) + Collapse(t);
        p + Collapse(t);
      }
    }
  }

  lemma {:induction false} RStripKeepsAHead(p: string, s: string)
    requires Heads(p, s) && p != [] && p[|p| - 1] != '-'
    ensures Heads(p, RStrip(s))
    decreases |s|
  {
    if s[|s| - 1] == '-' {
      RStripKeepsAHead(p, s[..|s| - 1]);
    }
  }

  lemma SanitizeKeepsAHead(p: string, rest: string, maxLen: nat)
    requires AllLabelChars(p) && NoDouble(p) && Capped(p) && |p| <= maxLen
    ensures Heads(p, Sanitize(p + "-" + rest, maxLen))
  {
    var name := p + "-" + rest;
    assert name == p + ("-" + rest);
    LettersConcat(p, "-" + rest);
    CleanIsKept(p);
    assert ("-" + rest)[0] == '-';
    CollapseKeepsAHead(p, Letters("-" + rest));
    var s := Collapse(Letters(name));
    assert Heads(p, s);
    RStripKeepsAHead(p, s);
    RStripKeepsAHead(p, Take(RStrip(s), maxLen));
  }

  // ---------------------------------------------------------------- a suffix survives

  lemma {:induction false} CollapseKeepsATail(a: string, u: string)
    requires NoDouble(u) && u != [] && u[0] != '-'
    ensures Collapse(a + u) == Collapse(a) + u
    decreases |a|
  {
    var s := a + u;
    if a == [] {
      assert s == u;
      SingleDashesAreKept(u);
    } else {
      assert s[1..] == a[1..] + u;
      CollapseKeepsATail(a[1..], u);
      if |a| == 1 {
        assert a[1..] == [] && Collapse(s) == [a[0]] + Collapse(s[1..]);
      } else {
        assert s[0] == a[0] && s[1] == a[1];
      }
    }
  }

  lemma {:induction false} LStripKeepsATail(a: string, u: string)
    requires u != [] && u[0] != '-'
    ensures LStrip(a + u) == LStrip(a) + u
    decreases |a|
  {
    if a == [] {
      assert a + u == u;
    } else {
      assert (a + u)[1..] == a[1..] + u;
      LStripKeepsATail(a[1..], u);
    }
  }

  /** The text before it is cut to a length. */
  function Uncut(name: string): string {
    RStrip(LStrip(Collapse(Letters(name))))
  }

  /** A result of at most 63 characters is no cut of a longer one. */
  lemma ShortMeansUncut(name: string)
    requires |Sanitize(name, 253)| <= 63
    ensures Sanitize(name, 253) == if Uncut(name) == [] then DEFAULT else Uncut(name)
  {
    var clean := LStrip(Collapse(Letters(name)));
    var s := Uncut(name);
    PrefixKeepsShape(s, clean);
    if |s| > 253 {
      PrefixKeepsShape(Take(s, 253), s);
      StripsOne(s[..253]);
      assert false;
    }
    assert RStrip(s) == s;
  }

  lemma StripsOne(s: string)
    requires NoDouble(s) && |s| > 1
    ensures |RStrip(s)| >= |s| - 1
  {
    assert RStrip(s[..|s| - 1]) == s[..|s| - 1] || s[|s| - 1] != '-';
  }

  /** What a text ends in is still there after sanitizing, unless the name is long. */
  lemma SanitizeKeepsATail(a: string, tail: string)
    requires |Sanitize(a + tail, 253)| <= 63
    requires NoDouble(Letters(tail)) && Capped(Letters(tail))
    ensures var s, u := Sanitize(a + tail, 253), Letters(tail); |u| <= |s| && s[|s| - |u|..] == u
  {
    hide Letters, Collapse, LStrip, NoDouble, Sanitize;
    var u := Letters(tail);
    ShortMeansUncut(a + tail);
    LettersConcat(a, tail);
    CollapseKeepsATail(Letters(a), u);
    LStripKeepsATail(Collapse(Letters(a)), u);
    var s := LStrip(Collapse(Letters(a))) + u;
    assert s[|s| - 1] == u[|u| - 1];
    assert RStrip(s) == s;
  }

  // ---------------------------------------------------------------- the last mark in a text

  /** Text with one mark in it, and none after it, splits one way. */
  lemma LastMark(c: string, a: string, d: string, b: string, mark: char)
    requires c + [mark] + a == d + [mark] + b
    requires (forall k :: 0 <= k < |a| ==> a[k] != mark) && (forall k :: 0 <= k < |b| ==> b[k] != mark)
    ensures c == d && a == b
  {
    LaterMark(c, a, d, b, mark);
    LaterMark(d, b, c, a, mark);
    var s := c + [mark] + a;
    assert s[..|c|] == c && s[..|d|] == d;
    assert s[|c| + 1..] == a && s[|d| + 1..] == b;
  }

  lemma LaterMark(c: string, a: string, d: string, b: string, mark: char)
    requires c + [mark] + a == d + [mark] + b
    requires forall k :: 0 <= k < |a| ==> a[k] != mark
    ensures |d| <= |c|
  {
    var s := c + [mark] + a;
    forall k | |c| < k < |s|
      ensures s[k] != mark
    {
      assert s[k] == a[k - |c| - 1];
    }
    assert s[|d|] == mark;
  }

  // ---------------------------------------------------------------- decimals

  function Digit(d: nat): char
    requires d < 10
  {
    ('0' as int + d) as char
  }

  function Decimal(n: nat): (r: string)
    ensures r != [] && forall i :: 0 <= i < |r| ==> IsDigit(r[i])
  {
    if n < 10 then [Digit(n)] else Decimal(n / 10) + [Digit(n % 10)]
  }

  function Value(s: string): nat
    requires forall i :: 0 <= i < |s| ==> IsDigit(s[i])
  {
    if s == [] then 0
    else
      var last := s[|s| - 1];
      assert IsDigit(last);
      10 * Value(s[..|s| - 1]) + (last as int - '0' as int)
  }

  lemma {:induction false} DecimalReadsBack(n: nat)
    ensures Value(Decimal(n)) == n
    decreases n
  {
    if n >= 10 {
      DecimalReadsBack(n / 10);
      var s := Decimal(n);
      assert s[..|s| - 1] == Decimal(n / 10);
    } else {
      assert Decimal(n)[..0] == [];
    }
  }

  function Pow10(k: nat): nat {
    if k == 0 then 1 else 10 * Pow10(k - 1)
  }

  lemma {:induction false} DecimalLength(n: nat, k: nat)
    requires k > 0 && n < Pow10(k)
    ensures |Decimal(n)| <= k
    decreases k
  {
    if n >= 10 && k > 1 {
      DecimalLength(n / 10, k - 1);
    }
  }
}

module Names {
  import opened Wrappers
  import opened Labels

  const LABEL_LENGTH := 63
  const HASH_LENGTH := 8

  predicate Hex(s: string) {
    |s| == HASH_LENGTH && forall i :: 0 <= i < |s| ==> IsDigit(s[i]) || 'a' <= s[i] <= 'f'
  }

  type Nibble = n: nat | n < 16

  /** The first eight hexadecimal digits of a digest. */
  datatype Word = Word(a: Nibble, b: Nibble, c: Nibble, d: Nibble, e: Nibble, f: Nibble, g: Nibble, h: Nibble)

  /** Any digest at all. */
  type Digest = string -> Word

  function HexDigit(n: Nibble): char {
    if n < 10 then ('0' as int + n) as char else ('a' as int + n - 10) as char
  }

  function HexText(w: Word): (s: string)
    ensures Hex(s)
  {
    [HexDigit(w.a), HexDigit(w.b), HexDigit(w.c), HexDigit(w.d),
     HexDigit(w.e), HexDigit(w.f), HexDigit(w.g), HexDigit(w.h)]
  }

  lemma HexReadsBack(v: Word, w: Word)
    ensures HexText(v) == HexText(w) <==> v == w
  {
    var s, t := HexText(v), HexText(w);
    if s == t {
      assert s[0] == t[0] && s[1] == t[1] && s[2] == t[2] && s[3] == t[3];
      assert s[4] == t[4] && s[5] == t[5] && s[6] == t[6] && s[7] == t[7];
    }
  }

  /** `_collision_resistant_k8s_name`. */
  function Resistant(name: string, maxLen: nat, digest: Digest): string
    requires maxLen >= HASH_LENGTH + 2
  {
    var normalized := Sanitize(name, 253);
    if |normalized| <= maxLen then normalized
    else
      var head := RStrip(normalized[..maxLen - HASH_LENGTH - 1]);
      (if head == [] then DEFAULT else head) + "-" + HexText(digest(name))
  }

  lemma ResistantIsALabel(name: string, maxLen: nat, digest: Digest)
    requires HASH_LENGTH + 2 <= maxLen <= 253
    ensures var s := Resistant(name, maxLen, digest);
            AllLabelChars(s) && NoDouble(s) && Capped(s) && |s| <= maxLen
  {
    SanitizedIsALabel(name, 253);
    var normalized := Sanitize(name, 253);
    if |normalized| > maxLen {
      var cut := normalized[..maxLen - HASH_LENGTH - 1];
      var head := RStrip(cut);
      PrefixKeepsShape(cut, normalized);
      RStripKeepsTheFirst(cut);
      PrefixKeepsShape(head, cut);
      HashedIsALabel(head, HexText(digest(name)));
    }
  }

  lemma HashedIsALabel(head: string, hash: string)
    requires AllLabelChars(head) && NoDouble(head) && Capped(head) && Hex(hash)
    ensures var s := head + "-" + hash;
            AllLabelChars(s) && NoDouble(s) && Capped(s) && |s| == |head| + 1 + HASH_LENGTH
  {
    var s := head + "-" + hash;
    forall i | 0 <= i < |s|
      ensures LabelChar(s[i])
      ensures i < |s| - 1 ==> s[i] != '-' || s[i + 1] != '-'
    {
      if i < |head| {
        assert s[i] == head[i];
      } else if i > |head| {
        assert s[i] == hash[i - |head| - 1];
      } else {
        assert s[i + 1] == hash[0];
      }
    }
  }

  lemma {:induction false} RStripKeepsTheFirst(s: string)
    requires s != [] && s[0] != '-'
    ensures RStrip(s) != []
    decreases |s|
  {
    if s[|s| - 1] == '-' {
      RStripKeepsTheFirst(s[..|s| - 1]);
    }
  }

  /** Names are stable: the object name, made from the workflow name once more, is that name. */
  lemma ResistantSurvivesSanitizing(name: string, digest: Digest)
    ensures Sanitize(Resistant(name, LABEL_LENGTH, digest), LABEL_LENGTH) == Resistant(name, LABEL_LENGTH, digest)
  {
    ResistantIsALabel(name, LABEL_LENGTH, digest);
    LabelsAreFixed(Resistant(name, LABEL_LENGTH, digest), LABEL_LENGTH);
  }

  // ---------------------------------------------------------------- Argo task names

  function StepPrefix(idx: nat): string {
    "step-" + Decimal(idx)
  }

  function TaskName(idx: nat, stepName: string, digest: Digest): string {
    Resistant(StepPrefix(idx) + "-" + stepName, LABEL_LENGTH, digest)
  }

  /** The digits at the head of a text. */
  function Digits(s: string): (r: string)
    ensures forall i :: 0 <= i < |r| ==> IsDigit(r[i])
  {
    if s == [] || !IsDigit(s[0]) then [] else [s[0]] + Digits(s[1..])
  }

  /** The index a task name was made from, read from the name alone. */
  function IndexIn(task: string): nat {
    if |task| < 5 then 0 else Value(Digits(task[5..]))
  }

  lemma {:induction false} DigitsStop(d: string, rest: string)
    requires forall i :: 0 <= i < |d| ==> IsDigit(d[i])
    requires rest != [] ==> rest[0] == '-'
    ensures Digits(d + rest) == d
    decreases |d|
  {
    if d == [] {
      assert d + rest == rest;
    } else {
      assert (d + rest)[1..] == d[1..] + rest;
      DigitsStop(d[1..], rest);
    }
  }

  lemma HeadsReadBack(idx: nat, task: string)
    requires Heads(StepPrefix(idx), task)
    ensures IndexIn(task) == idx && task != "main"
  {
    var p := StepPrefix(idx);
    assert task == p + task[|p|..];
    assert task[5..] == Decimal(idx) + task[|p|..];
    DigitsStop(Decimal(idx), task[|p|..]);
    DecimalReadsBack(idx);
    assert task[0] == 's';
  }

  /** The index of a step is legible in its task name whatever the step is called, and whether or
      not the name had to be cut, so the digest is never what tells two steps apart. */
  lemma IndexIsLegible(idx: nat, stepName: string, digest: Digest)
    requires idx < Pow10(49)
    ensures IndexIn(TaskName(idx, stepName, digest)) == idx
    ensures TaskName(idx, stepName, digest) != "main"
  {
    hide *;
    PrefixFits(idx);
    PrefixIsClean(idx);
    ResistantKeepsAHead(StepPrefix(idx), stepName, digest);
    TaskNameIs(idx, stepName, digest);
    HeadsReadBack(idx, TaskName(idx, stepName, digest));
  }

  lemma TaskNameIs(idx: nat, stepName: string, digest: Digest)
    ensures TaskName(idx, stepName, digest) == Resistant(StepPrefix(idx) + "-" + stepName, LABEL_LENGTH, digest)
  {
  }

  lemma PrefixFits(idx: nat)
    requires idx < Pow10(49)
    ensures |StepPrefix(idx)| <= LABEL_LENGTH - HASH_LENGTH - 1
  {
    DecimalLength(idx, 49);
  }

  /** A word that fits before the digest stays at the head of the name, cut or not. */
  lemma ResistantKeepsAHead(p: string, rest: string, digest: Digest)
    requires AllLabelChars(p) && NoDouble(p) && Capped(p) && |p| <= LABEL_LENGTH - HASH_LENGTH - 1
    ensures Heads(p, Resistant(p + "-" + rest, LABEL_LENGTH, digest))
  {
    hide Sanitize, AllLabelChars, NoDouble;
    SanitizeKeepsAHead(p, rest, 253);
    var normalized := Sanitize(p + "-" + rest, 253);
    if |normalized| > LABEL_LENGTH {
      var cut := normalized[..LABEL_LENGTH - HASH_LENGTH - 1];
      RStripKeepsAHead(p, cut);
    }
  }

  lemma PrefixIsClean(idx: nat)
    ensures var p := StepPrefix(idx); AllLabelChars(p) && NoDouble(p) && Capped(p)
  {
    var d := Decimal(idx);
    assert forall i :: 0 <= i < |d| ==> IsDigit(d[i]);
    var p := StepPrefix(idx);
    forall i | 0 <= i < |p|
      ensures LabelChar(p[i]) && (i >= 5 ==> p[i] != '-')
    {
      if i >= 5 {
        assert p[i] == d[i - 5];
      }
    }
  }

  /** Every task of a workflow has a name of its own, usable as a label and never the entry
      template's. */
  lemma TasksAreTold(names: seq<string>, digest: Digest)
    requires |names| <= Pow10(49)
    ensures forall i, j :: 0 <= i < j < |names| ==> TaskName(i, names[i], digest) != TaskName(j, names[j], digest)
    ensures forall i :: 0 <= i < |names| ==>
      Label(TaskName(i, names[i], digest)) && TaskName(i, names[i], digest) != "main"
  {
    forall i | 0 <= i < |names|
      ensures Label(TaskName(i, names[i], digest)) && TaskName(i, names[i], digest) != "main"
      ensures IndexIn(TaskName(i, names[i], digest)) == i
    {
      IndexIsLegible(i, names[i], digest);
      ResistantIsALabel(StepPrefix(i) + "-" + names[i], LABEL_LENGTH, digest);
    }
  }

  // ---------------------------------------------------------------- workflow names

  /** What an occurrence's identifiers come to before any counting. */
  function Canonical(missionId: string, serviceId: string, timestamp: string, digest: Digest): string {
    Resistant(missionId + "-" + serviceId + "-" + timestamp, LABEL_LENGTH, digest)
  }

  function Count(cs: seq<string>, c: string): nat {
    if cs == [] then 0 else Count(cs[..|cs| - 1], c) + (if cs[|cs| - 1] == c then 1 else 0)
  }

  /** The name of the k-th occurrence of a canonical name. */
  function Variant(c: string, k: nat, digest: Digest): string {
    if k <= 1 then c else Resistant(c + "-" + Decimal(k), LABEL_LENGTH, digest)
  }

  /** The names given to a run of canonical names, in order. */
  function Named(cs: seq<string>, digest: Digest): (r: seq<string>)
    ensures |r| == |cs|
  {
    if cs == [] then []
    else
      var last := cs[|cs| - 1];
      Named(cs[..|cs| - 1], digest) + [Variant(last, Count(cs, last), digest)]
  }

  lemma OneMoreName(cs: seq<string>, c: string, name: string, digest: Digest)
    requires name == Variant(c, Count(cs, c) + 1, digest)
    ensures Named(cs + [c], digest) == Named(cs, digest) + [name]
  {
    var all := cs + [c];
    CountOneMore(cs, c, c);
    hide Variant, Count;
    assert all[..|all| - 1] == cs && all[|all| - 1] == c;
  }

  lemma CountOneMore(cs: seq<string>, c: string, d: string)
    ensures Count(cs + [c], d) == Count(cs, d) + (if c == d then 1 else 0)
  {
    var all := cs + [c];
    assert all[..|all| - 1] == cs && all[|all| - 1] == c;
  }

  /** `used` counts what was seen. */
  ghost predicate Tallies(used: map<string, nat>, seen: seq<string>) {
    forall c :: Tally(used, c) == Count(seen, c)
  }

  function Tally(used: map<string, nat>, c: string): nat {
    if c in used then used[c] else 0
  }

  lemma OneMoreTally(used: map<string, nat>, seen: seq<string>, c: string)
    requires Tallies(used, seen)
    ensures Tallies(used[c := Tally(used, c) + 1], seen + [c])
  {
    hide Count;
    var used' := used[c := Tally(used, c) + 1];
    forall d
      ensures Tally(used', d) == Count(seen + [c], d)
    {
      CountOneMore(seen, c, d);
      assert Tally(used, d) == Count(seen, d);
    }
  }

  class Namer {
    const digest: Digest
    var used: map<string, nat>
    ghost var seen: seq<string>

    ghost predicate Valid()
      reads this
    {
      Tallies(used, seen)
    }

    constructor (digest: Digest)
      ensures Valid() && seen == [] && this.digest == digest
    {
      this.digest, used, seen := digest, map[], [];
    }

    /** `_workflow_name`: the first occurrence keeps the plain name, a later one is numbered. */
    method Name(missionId: string, serviceId: string, timestamp: string) returns (name: string)
      requires Valid()
      modifies this
      ensures Valid() && seen == old(seen) + [Canonical(missionId, serviceId, timestamp, digest)]
      ensures Named(seen, digest) == Named(old(seen), digest) + [name]
    {
      hide Resistant, Decimal, Count, Named, Tallies;
      var canonical := Canonical(missionId, serviceId, timestamp, digest);
      var before := Tally(used, canonical);
      assert before == Count(seen, canonical) by {
        Tallied(used, seen, canonical);
      }
      OneMoreTally(used, seen, canonical);
      name := if before == 0 then canonical else Resistant(canonical + "-" + Decimal(before + 1), LABEL_LENGTH, digest);
      OneMoreName(seen, canonical, name, digest);
      used := used[canonical := before + 1];
      seen := seen + [canonical];
    }
  }

  lemma Tallied(used: map<string, nat>, seen: seq<string>, c: string)
    requires Tallies(used, seen)
    ensures Tally(used, c) == Count(seen, c)
  {
  }

  /** A label without a double dash: what a name already is once it has been given. */
  predicate Fixed(s: string) {
    AllLabelChars(s) && NoDouble(s) && Capped(s) && |s| <= LABEL_LENGTH
  }

  /** Names given are such labels, numbered or not. */
  lemma VariantIsFixed(c: string, k: nat, digest: Digest)
    requires Fixed(c)
    ensures Fixed(Variant(c, k, digest)) && Label(Variant(c, k, digest))
  {
    hide Resistant, Decimal, AllLabelChars, NoDouble, Capped;
    ResistantIsALabel(c + "-" + Decimal(k), LABEL_LENGTH, digest);
  }

  lemma CanonicalIsFixed(missionId: string, serviceId: string, timestamp: string, digest: Digest)
    ensures Fixed(Canonical(missionId, serviceId, timestamp, digest))
  {
    hide Resistant, AllLabelChars, NoDouble, Capped;
    ResistantIsALabel(missionId + "-" + serviceId + "-" + timestamp, LABEL_LENGTH, digest);
  }

  lemma LastNameIsALabel(cs: seq<string>, digest: Digest)
    requires cs != [] && Fixed(cs[|cs| - 1])
    ensures Label(Named(cs, digest)[|cs| - 1])
  {
    hide Variant, Count, Fixed, Label;
    VariantIsFixed(cs[|cs| - 1], Count(cs, cs[|cs| - 1]), digest);
  }

  /** Two different occurrences, of the same or of different canonical names, given one name. It
      depends on how often each canonical name occurs and not on the order. */
  ghost predicate Clash(cs: seq<string>, digest: Digest) {
    exists c, i: nat, d, j: nat ::
      (c, i) != (d, j) && 1 <= i <= Count(cs, c) && 1 <= j <= Count(cs, d)
      && Variant(c, i, digest) == Variant(d, j, digest)
  }

  lemma {:induction false} NameAt(cs: seq<string>, p: nat, digest: Digest)
    requires p < |cs|
    ensures Named(cs, digest)[p] == Variant(cs[p], Count(cs[..p + 1], cs[p]), digest)
    decreases |cs|
  {
    hide Variant, Count;
    var k := |cs| - 1;
    if p < k {
      NameAt(cs[..k], p, digest);
      assert cs[..k][..p + 1] == cs[..p + 1];
    } else {
      assert cs[..p + 1] == cs;
    }
  }

  lemma {:induction false} CountGrows(cs: seq<string>, p: nat, q: nat, c: string)
    requires p <= q <= |cs|
    ensures Count(cs[..p], c) <= Count(cs[..q], c)
    ensures p < q && cs[q - 1] == c ==> Count(cs[..p], c) < Count(cs[..q], c)
    decreases q
  {
    if p < q {
      CountGrows(cs, p, q - 1, c);
      assert cs[..q][..q - 1] == cs[..q - 1];
    }
  }

  /** Every occurrence counted is somewhere in the list. */
  lemma {:induction false} OccurrenceAt(cs: seq<string>, c: string, k: nat) returns (p: nat)
    requires 1 <= k <= Count(cs, c)
    ensures p < |cs| && cs[p] == c && Count(cs[..p + 1], c) == k
    decreases |cs|
  {
    var n := |cs| - 1;
    if cs[n] == c && Count(cs, c) == k {
      p := n;
      assert cs[..n + 1] == cs;
    } else {
      p := OccurrenceAt(cs[..n], c, k);
      assert cs[..n][..p + 1] == cs[..p + 1];
    }
  }

  lemma ClashIsARepeat(cs: seq<string>, digest: Digest)
    requires Clash(cs, digest)
    ensures !NoDup(Named(cs, digest))
  {
    hide Variant, Count, Named;
    var c, i: nat, d, j: nat :|
      (c, i) != (d, j) && 1 <= i <= Count(cs, c) && 1 <= j <= Count(cs, d)
      && Variant(c, i, digest) == Variant(d, j, digest);
    var p := OccurrenceAt(cs, c, i);
    var q := OccurrenceAt(cs, d, j);
    NameAt(cs, p, digest);
    NameAt(cs, q, digest);
    var names := Named(cs, digest);
    assert p != q && names[p] == names[q];
  }

  lemma RepeatIsAClash(cs: seq<string>, p: nat, q: nat, digest: Digest)
    requires p < q < |cs| && Named(cs, digest)[p] == Named(cs, digest)[q]
    ensures Clash(cs, digest)
  {
    hide Variant, Count, Named;
    NameAt(cs, p, digest);
    NameAt(cs, q, digest);
    OccurrenceIsCounted(cs, p);
    OccurrenceIsCounted(cs, q);
    OccurrencesDiffer(cs, p, q);
  }

  /** The names are distinct exactly when no two occurrences clash. */
  lemma NamesAreDistinctIff(cs: seq<string>, digest: Digest)
    ensures NoDup(Named(cs, digest)) <==> !Clash(cs, digest)
  {
    hide Clash, Named;
    if Clash(cs, digest) {
      ClashIsARepeat(cs, digest);
    }
    var names := Named(cs, digest);
    if !NoDup(names) {
      var p, q :| 0 <= p < q < |names| && names[p] == names[q];
      RepeatIsAClash(cs, p, q, digest);
    }
  }

  lemma OccurrenceIsCounted(cs: seq<string>, p: nat)
    requires p < |cs|
    ensures 1 <= Count(cs[..p + 1], cs[p]) <= Count(cs, cs[p])
  {
    hide Count;
    CountGrows(cs, p, p + 1, cs[p]);
    CountGrows(cs, p + 1, |cs|, cs[p]);
    assert cs[..|cs|] == cs;
  }

  lemma OccurrencesDiffer(cs: seq<string>, p: nat, q: nat)
    requires p < q < |cs|
    ensures (cs[p], Count(cs[..p + 1], cs[p])) != (cs[q], Count(cs[..q + 1], cs[q]))
  {
    hide Count;
    CountGrows(cs, p + 1, q + 1, cs[q]);
  }

  /** While nothing has to be cut, names clash only when one canonical name is another with a
      number the other's repeats reach. */
  ghost predicate Taken(cs: seq<string>) {
    exists c, k: nat :: 2 <= k <= Count(cs, c) && c + "-" + Decimal(k) in cs
  }

  ghost predicate Short(cs: seq<string>) {
    forall c, k: nat {:trigger Count(cs, c), Decimal(k)} :: 1 <= k <= Count(cs, c) ==>
      AllLabelChars(c) && NoDouble(c) && Capped(c) && |c| + 1 + |Decimal(k)| <= LABEL_LENGTH
  }

  lemma NumberedIsClean(c: string, k: nat)
    requires AllLabelChars(c) && NoDouble(c) && Capped(c)
    ensures var s := c + "-" + Decimal(k); AllLabelChars(s) && NoDouble(s) && Capped(s)
  {
    var s, d := c + "-" + Decimal(k), Decimal(k);
    forall i | 0 <= i < |s|
      ensures LabelChar(s[i])
      ensures i < |s| - 1 ==> s[i] != '-' || s[i + 1] != '-'
    {
      if i < |c| {
        assert s[i] == c[i];
      } else if i > |c| {
        assert s[i] == d[i - |c| - 1];
      } else {
        assert s[i + 1] == d[0];
      }
    }
  }

  lemma ShortVariant(cs: seq<string>, c: string, k: nat, digest: Digest)
    requires Short(cs) && 2 <= k <= Count(cs, c)
    ensures Variant(c, k, digest) == c + "-" + Decimal(k)
  {
    var s := c + "-" + Decimal(k);
    assert 1 <= k <= Count(cs, c) && |Decimal(k)| > 0;
    NumberedIsClean(c, k);
    LabelsAreFixed(s, 253);
  }

  /** A number after the last dash reads back. */
  lemma NumbersReadBack(c: string, i: nat, d: string, j: nat)
    requires c + "-" + Decimal(i) == d + "-" + Decimal(j)
    ensures c == d && i == j
  {
    LastMark(c, Decimal(i), d, Decimal(j), '-');
    DecimalReadsBack(i);
    DecimalReadsBack(j);
  }

  lemma {:induction false} CountedIsIn(cs: seq<string>, c: string)
    ensures Count(cs, c) > 0 <==> c in cs
    decreases |cs|
  {
    if cs != [] {
      CountedIsIn(cs[..|cs| - 1], c);
      assert cs == cs[..|cs| - 1] + [cs[|cs| - 1]];
    }
  }

  lemma ShortNamesAreDistinctIff(cs: seq<string>, digest: Digest)
    requires Short(cs)
    ensures NoDup(Named(cs, digest)) <==> !Taken(cs)
  {
    NamesAreDistinctIff(cs, digest);
    if Taken(cs) {
      var c, k: nat :| 2 <= k <= Count(cs, c) && c + "-" + Decimal(k) in cs;
      var d := c + "-" + Decimal(k);
      ShortVariant(cs, c, k, digest);
      CountedIsIn(cs, d);
      assert (c, k) != (d, 1) && Variant(d, 1, digest) == d;
    }
    if Clash(cs, digest) {
      var c, i: nat, d, j: nat :|
        (c, i) != (d, j) && 1 <= i <= Count(cs, c) && 1 <= j <= Count(cs, d)
        && Variant(c, i, digest) == Variant(d, j, digest);
      CountedIsIn(cs, c);
      CountedIsIn(cs, d);
      if i >= 2 {
        ShortVariant(cs, c, i, digest);
      }
      if j >= 2 {
        ShortVariant(cs, d, j, digest);
      }
      if i >= 2 && j >= 2 {
        NumbersReadBack(c, i, d, j);
      }
    }
  }

  lemma TwoAndOne(c: string, d: string)
    requires c != d
    ensures Count([], c) == 0 && Count([c], c) == 1 && Count([c, c], c) == 2
    ensures Count([c, c], d) == 0 && Count([c, c, d], d) == 1
  {
    assert [c][..0] == [] && [c, c][..1] == [c] && [c, c, d][..2] == [c, c];
    assert Count([c], d) == 0;
    assert Count([c, c], c) == Count([c], c) + 1 && Count([c, c], d) == Count([c], d);
  }

  lemma NameTwoAndOne(c: string, d: string, second: string, third: string, digest: Digest)
    requires c != d && c == Variant(c, 1, digest)
    requires second == Variant(c, 2, digest) && third == Variant(d, 1, digest)
    ensures Named([c, c, d], digest) == [c, second, third]
  {
    hide Variant, Count;
    TwoAndOne(c, d);
    assert [c, c, d][..2] == [c, c] && [c, c][..1] == [c] && [c][..0] == [];
    assert Named([c], digest) == [c];
    assert Named([c, c], digest) == [c, second];
  }

  /** On identifiers at large it is not: `_workflow_name` of `m`, `s` and `t` twice, and of `m`, `s`
      and `t-2`, comes to `m-s-t`, `m-s-t-2` and `m-s-t-2`. */
  lemma RepeatsCanClash(digest: Digest)
    ensures var first, other := Canonical("m", "s", "t", digest), Canonical("m", "s", "t-2", digest);
            Named([first, first, other], digest) == ["m-s-t", "m-s-t-2", "m-s-t-2"]
  {
    TwoFixed();
    TwoSpelled();
    hide *;
    ShortStays("m-s-t", digest);
    ShortStays("m-s-t-2", digest);
    SecondVariant("m-s-t", digest);
    NameTwoAndOne("m-s-t", "m-s-t-2", "m-s-t-2", "m-s-t-2", digest);
    CanonicalIs("m", "s", "t", digest);
    CanonicalIs("m", "s", "t-2", digest);
  }

  lemma TwoFixed()
    ensures Fixed("m-s-t") && Fixed("m-s-t-2")
  {
  }

  lemma TwoSpelled()
    ensures "m" + "-" + "s" + "-" + "t" == "m-s-t" && "m" + "-" + "s" + "-" + "t-2" == "m-s-t-2"
    ensures "m-s-t" + "-" + Decimal(2) == "m-s-t-2"
  {
  }

  lemma CanonicalIs(missionId: string, serviceId: string, timestamp: string, digest: Digest)
    ensures Canonical(missionId, serviceId, timestamp, digest)
         == Resistant(missionId + "-" + serviceId + "-" + timestamp, LABEL_LENGTH, digest)
  {
  }

  lemma ShortStays(s: string, digest: Digest)
    requires Fixed(s)
    ensures Resistant(s, LABEL_LENGTH, digest) == s && Variant(s, 1, digest) == s
  {
    LabelsAreFixed(s, 253);
  }

  lemma SecondVariant(c: string, digest: Digest)
    ensures Variant(c, 2, digest) == Resistant(c + "-" + Decimal(2), LABEL_LENGTH, digest)
  {
  }

  // ---------------------------------------------------------------- names that end in a timestamp

  /** `0` stands for any digit, `~` for a sign and anything else for itself. */
  predicate Fits(s: string, shape: string) {
    && |s| == |shape|
    && forall k :: 0 <= k < |s| ==>
         if shape[k] == '0' then IsDigit(s[k]) else if shape[k] == '~' then s[k] in {'+', '-'} else s[k] == shape[k]
  }

  predicate Ends(s: string, shape: string) {
    |s| >= |shape| && Fits(s[|s| - |shape|..], shape)
  }

  const OFFSET := "T00:00:00~00:00"
  const FINE_OFFSET := "T00:00:00.000000~00:00"
  const CLOCK := "t00-00-00-00-00"
  const FINE_CLOCK := "t00-00-00-000000-00-00"

  /** What `_to_rfc3339_z` writes ends so: in `Z`, or in the time of day and an offset in minutes,
      with microseconds where there are any. */
  predicate Timestamped(raw: string) {
    (raw != [] && raw[|raw| - 1] == 'Z') || Ends(raw, OFFSET) || Ends(raw, FINE_OFFSET)
  }

  /** And this is what is left of that in an uncut name. */
  predicate Dated(c: string) {
    (c != [] && c[|c| - 1] == 'z') || Ends(c, CLOCK) || Ends(c, FINE_CLOCK)
  }

  predicate EndsInHash(s: string) {
    |s| > HASH_LENGTH && s[|s| - HASH_LENGTH - 1] == '-' && Hex(s[|s| - HASH_LENGTH..])
  }

  lemma {:induction false} LettersOneByOne(s: string)
    requires forall k :: 0 <= k < |s| ==> |Letter(s[k])| == 1
    ensures |Letters(s)| == |s| && forall k :: 0 <= k < |s| ==> Letters(s)[k] == Letter(s[k])[0]
    decreases |s|
  {
    if s != [] {
      LettersOneByOne(s[1..]);
    }
  }

  lemma LettersOfAClock(s: string)
    requires Fits(s, OFFSET)
    ensures Fits(Letters(s), CLOCK)
  {
    LettersOneByOne(s);
  }

  lemma LettersOfAFineClock(s: string)
    requires Fits(s, FINE_OFFSET)
    ensures Fits(Letters(s), FINE_CLOCK)
  {
    LettersOneByOne(s);
  }

  lemma ClocksAreClean(u: string)
    requires Fits(u, CLOCK) || Fits(u, FINE_CLOCK)
    ensures NoDouble(u) && Capped(u)
  {
  }

  lemma SplitTail(s: string, n: nat)
    requires n <= |s|
    ensures s == s[..|s| - n] + s[|s| - n..]
  {
  }

  /** An uncut name made of a timestamped text still ends in the timestamp. */
  lemma UncutIsDated(raw: string)
    requires Timestamped(raw) && !Cut(raw)
    ensures Dated(Sanitize(raw, 253))
  {
    hide Sanitize, Fits;
    if Ends(raw, OFFSET) {
      SplitTail(raw, |OFFSET|);
      var tail := raw[|raw| - |OFFSET|..];
      LettersOfAClock(tail);
      FitsLength(Letters(tail), CLOCK);
      ClocksAreClean(Letters(tail));
      SanitizeKeepsATail(raw[..|raw| - |OFFSET|], tail);
    } else if Ends(raw, FINE_OFFSET) {
      SplitTail(raw, |FINE_OFFSET|);
      var tail := raw[|raw| - |FINE_OFFSET|..];
      LettersOfAFineClock(tail);
      FitsLength(Letters(tail), FINE_CLOCK);
      ClocksAreClean(Letters(tail));
      SanitizeKeepsATail(raw[..|raw| - |FINE_OFFSET|], tail);
    } else {
      SplitTail(raw, 1);
      var tail := raw[|raw| - 1..];
      assert tail == "Z" && Letters("Z") == "z";
      SanitizeKeepsATail(raw[..|raw| - 1], tail);
      var s := Sanitize(raw, 253);
      assert s[|s| - 1] == s[|s| - 1..][0];
    }
  }

  lemma FitsLength(s: string, shape: string)
    requires Fits(s, shape)
    ensures |s| == |shape|
  {
  }

  lemma TailAt(s: string, shape: string, k: nat)
    requires Ends(s, shape) && k < |shape|
    ensures var a := s[|s| - |shape| + k];
            if shape[k] == '0' then IsDigit(a) else if shape[k] == '~' then a in {'+', '-'} else a == shape[k]
  {
    assert s[|s| - |shape|..][k] == s[|s| - |shape| + k];
  }

  /** A dated name ends neither in a digest nor, after a dated or hashed name, in a number. */
  lemma DatedIsNotHashed(c: string)
    requires Dated(c)
    ensures !EndsInHash(c)
  {
    hide Fits;
    if EndsInHash(c) {
      var h := c[|c| - HASH_LENGTH..];
      assert h[HASH_LENGTH - 1] == c[|c| - 1] && h[HASH_LENGTH - 3] == c[|c| - 3];
      if Ends(c, CLOCK) {
        TailAt(c, CLOCK, 12);
      } else if Ends(c, FINE_CLOCK) {
        TailAt(c, FINE_CLOCK, 19);
      }
    }
  }

  /** In a name that ends in an offset the last dash comes before two digits. */
  lemma ClockBeforeANumber(c: string, d: string, k: nat)
    requires c == d + "-" + Decimal(k) && (Ends(c, CLOCK) || Ends(c, FINE_CLOCK))
    ensures |c| >= 15 && |d| == |c| - 3 && c[|c| - 6] == '-' && IsDigit(c[|c| - 4])
  {
    hide Fits, Decimal;
    var n := Decimal(k);
    var at := if Ends(c, CLOCK) then |c| - |CLOCK| else |c| - |FINE_CLOCK|;
    if Ends(c, CLOCK) {
      TailAt(c, CLOCK, 9);
      TailAt(c, CLOCK, 11);
      TailAt(c, CLOCK, 12);
      TailAt(c, CLOCK, 13);
      TailAt(c, CLOCK, 14);
    } else {
      TailAt(c, FINE_CLOCK, 16);
      TailAt(c, FINE_CLOCK, 18);
      TailAt(c, FINE_CLOCK, 19);
      TailAt(c, FINE_CLOCK, 20);
      TailAt(c, FINE_CLOCK, 21);
    }
    assert c[|d|] == '-';
    assert forall p :: |d| < p < |c| ==> c[p] == n[p - |d| - 1];
  }

  lemma DatedIsNotNumbered(c: string, d: string, k: nat)
    requires Dated(c) && (Dated(d) || EndsInHash(d))
    ensures c != d + "-" + Decimal(k)
  {
    hide Fits, Decimal;
    var n := Decimal(k);
    if c == d + "-" + n {
      assert c[|c| - 1] == n[|n| - 1];
      ClockBeforeANumber(c, d, k);
      assert forall p :: 0 <= p < |d| ==> c[p] == d[p];
      if Dated(d) {
        ClocksDoNotShift(c, d);
      }
    }
  }

  lemma ClocksDoNotShift(c: string, d: string)
    requires Ends(c, CLOCK) || Ends(c, FINE_CLOCK)
    requires |d| == |c| - 3 && forall p :: 0 <= p < |d| ==> c[p] == d[p]
    ensures !Dated(d)
  {
    hide Fits;
    assert |CLOCK| == 15 && |FINE_CLOCK| == 22;
    if Dated(d) {
      if Ends(c, CLOCK) {
        TailAt(c, CLOCK, 0);
        TailAt(c, CLOCK, 11);
        if Ends(d, CLOCK) {
          TailAt(d, CLOCK, 3);
        } else if Ends(d, FINE_CLOCK) {
          TailAt(d, FINE_CLOCK, 10);
        }
      } else {
        TailAt(c, FINE_CLOCK, 18);
        if Ends(d, CLOCK) {
          TailAt(d, CLOCK, 0);
          TailAt(c, FINE_CLOCK, 4);
        } else if Ends(d, FINE_CLOCK) {
          TailAt(c, FINE_CLOCK, 0);
          TailAt(d, FINE_CLOCK, 3);
        }
      }
    }
  }

  // ---------------------------------------------------------------- which names can meet

  predicate Cut(name: string) {
    |Sanitize(name, 253)| > LABEL_LENGTH
  }

  /** What is kept of a cut name before its digest. */
  function HeadOf(name: string): string {
    var head := RStrip(Take(Sanitize(name, 253), LABEL_LENGTH - HASH_LENGTH - 1));
    if head == [] then DEFAULT else head
  }

  lemma ResistantIs(name: string, digest: Digest)
    ensures Resistant(name, LABEL_LENGTH, digest) ==
            if Cut(name) then HeadOf(name) + "-" + HexText(digest(name)) else Sanitize(name, 253)
  {
    hide Sanitize;
  }

  function Canons(raws: seq<string>, digest: Digest): (r: seq<string>)
    ensures |r| == |raws| && forall k :: 0 <= k < |r| ==> r[k] == Resistant(raws[k], LABEL_LENGTH, digest)
  {
    seq(|raws|, k requires 0 <= k < |raws| => Resistant(raws[k], LABEL_LENGTH, digest))
  }

  function NumberedText(c: string, k: nat): string {
    c + "-" + Decimal(k)
  }

  /** The texts a run hashes: its identifiers, and its numbered names, where they are too long. */
  ghost predicate Hashed(raws: seq<string>, digest: Digest, x: string) {
    Cut(x) && (x in raws || exists c, k: nat :: 2 <= k <= Count(Canons(raws, digest), c) && x == NumberedText(c, k))
  }

  /** A numbered name meets the cut name of another text: cut itself, it has that text's head and
      digest; uncut, it is that head and its number reads like that digest. */
  ghost predicate Meets(c: string, k: nat, y: string, digest: Digest) {
    var x := NumberedText(c, k);
    if Cut(x) then x != y && HeadOf(x) == HeadOf(y) && digest(x) == digest(y)
    else HeadOf(y) == c && HexText(digest(y)) == Decimal(k)
  }

  ghost predicate Confused(raws: seq<string>, digest: Digest) {
    exists c, k: nat, y ::
      2 <= k <= Count(Canons(raws, digest), c) && Hashed(raws, digest, y) && Meets(c, k, y, digest)
  }

  lemma CleanAndUncut(c: string, k: nat)
    requires Fixed(c) && !Cut(NumberedText(c, k))
    ensures Sanitize(NumberedText(c, k), 253) == NumberedText(c, k)
  {
    var x := NumberedText(c, k);
    NumberedIsClean(c, k);
    ShortMeansUncut(x);
    CleanIsKept(x);
    SingleDashesAreKept(x);
    hide Letters, Collapse, AllLabelChars, NoDouble, Sanitize, Decimal;
    assert LStrip(x) == x;
    assert RStrip(x) == x;
  }

  lemma SplitHash(a: string, g: string, b: string, h: string)
    requires a + "-" + g == b + "-" + h && |g| == |h|
    ensures a == b && g == h
  {
    var s, t := a + "-" + g, b + "-" + h;
    assert s[..|a|] == a && t[..|b|] == b && s[|a| + 1..] == g && t[|b| + 1..] == h;
  }

  lemma SplitNumber(a: string, w: Word, c: string, k: nat)
    requires a + "-" + HexText(w) == c + "-" + Decimal(k)
    ensures a == c && HexText(w) == Decimal(k)
  {
    LastMark(a, HexText(w), c, Decimal(k), '-');
  }

  /** The text behind the i-th occurrence of a canonical name. */
  lemma TextBehind(raws: seq<string>, c: string, i: nat, digest: Digest) returns (y: string)
    requires 1 <= i <= Count(Canons(raws, digest), c)
    ensures Variant(c, i, digest) == Resistant(y, LABEL_LENGTH, digest)
    ensures if i == 1 then y in raws else y == NumberedText(c, i)
    ensures Cut(y) ==> Hashed(raws, digest, y)
    ensures Fixed(c)
    ensures exists raw :: raw in raws && c == Resistant(raw, LABEL_LENGTH, digest)
  {
    hide Resistant, Cut, Count, Fixed, Decimal;
    var cs := Canons(raws, digest);
    CountedIsIn(cs, c);
    var p :| 0 <= p < |cs| && cs[p] == c;
    assert raws[p] in raws;
    ResistantIsFixed(raws[p], digest);
    y := if i == 1 then raws[p] else NumberedText(c, i);
  }

  lemma ResistantIsFixed(raw: string, digest: Digest)
    ensures Fixed(Resistant(raw, LABEL_LENGTH, digest))
  {
    ResistantIsALabel(raw, LABEL_LENGTH, digest);
  }

  lemma CanonicalEnds(raw: string, digest: Digest)
    requires Timestamped(raw)
    ensures var c := Resistant(raw, LABEL_LENGTH, digest); if Cut(raw) then EndsInHash(c) else Dated(c)
  {
    hide Sanitize, Dated, Timestamped;
    ResistantIs(raw, digest);
    if Cut(raw) {
      HashIsAtTheEnd(HeadOf(raw), digest(raw));
    } else {
      UncutIsDated(raw);
    }
  }

  lemma HashIsAtTheEnd(head: string, w: Word)
    ensures EndsInHash(head + "-" + HexText(w))
  {
    var s := head + "-" + HexText(w);
    assert s[|s| - HASH_LENGTH..] == HexText(w);
  }

  lemma TimestampsAreNoLabels(raw: string, x: string)
    requires Timestamped(raw) && AllLabelChars(x)
    ensures raw != x
  {
    hide Fits;
    if Ends(raw, OFFSET) {
      TailAt(raw, OFFSET, 0);
    } else if Ends(raw, FINE_OFFSET) {
      TailAt(raw, FINE_OFFSET, 0);
    }
  }

  lemma NumberedIsLabelled(c: string, k: nat)
    requires Fixed(c)
    ensures AllLabelChars(NumberedText(c, k))
  {
    NumberedIsClean(c, k);
  }

  /** Where a numbered occurrence and another one are given one name, texts have been confused. */
  lemma ClashConfuses(raws: seq<string>, c: string, i: nat, d: string, j: nat, digest: Digest)
    requires forall raw :: raw in raws ==> Timestamped(raw)
    requires (c, i) != (d, j) && 1 <= i <= Count(Canons(raws, digest), c) && 2 <= j <= Count(Canons(raws, digest), d)
    requires Variant(c, i, digest) == Variant(d, j, digest)
    ensures Confused(raws, digest)
  {
    hide Resistant, Cut, Count, Fixed, Decimal, Sanitize, Dated, EndsInHash, HeadOf, Variant, NumberedText, Hashed,
      HexText, Timestamped;
    var y := TextBehind(raws, c, i, digest);
    var x := TextBehind(raws, d, j, digest);
    assert x == NumberedText(d, j);
    ResistantIs(x, digest);
    ResistantIs(y, digest);
    NumberedTextIs(d, j);
    NumberedTextIs(c, i);
    if Cut(x) && Cut(y) {
      SplitHash(HeadOf(x), HexText(digest(x)), HeadOf(y), HexText(digest(y)));
      HexReadsBack(digest(x), digest(y));
      TextsDiffer(raws, c, i, y, d, j);
      assert Meets(d, j, y, digest);
    } else if Cut(y) {
      CleanAndUncut(d, j);
      SplitNumber(HeadOf(y), digest(y), d, j);
      assert Meets(d, j, y, digest);
    } else if i >= 2 {
      CleanAndUncut(c, i);
      if Cut(x) {
        SplitNumber(HeadOf(x), digest(x), c, i);
        assert Meets(c, i, x, digest);
      } else {
        CleanAndUncut(d, j);
        NumbersReadBack(c, i, d, j);
      }
    } else {
      UncutPlainIsAlone(raws, y, d, j, digest);
    }
  }

  lemma NumberedTextIs(c: string, k: nat)
    ensures NumberedText(c, k) == c + "-" + Decimal(k)
  {
  }

  lemma TextsDiffer(raws: seq<string>, c: string, i: nat, y: string, d: string, j: nat)
    requires forall raw :: raw in raws ==> Timestamped(raw)
    requires (c, i) != (d, j) && Fixed(d) && (if i == 1 then y in raws else y == NumberedText(c, i))
    ensures y != NumberedText(d, j)
  {
    hide Timestamped, Fixed;
    if i == 1 {
      NumberedIsLabelled(d, j);
      TimestampsAreNoLabels(y, NumberedText(d, j));
    } else if y == NumberedText(d, j) {
      NumbersReadBack(c, i, d, j);
    }
  }

  /** A plain uncut name is no numbered one. */
  lemma UncutPlainIsAlone(raws: seq<string>, y: string, d: string, j: nat, digest: Digest)
    requires forall raw :: raw in raws ==> Timestamped(raw)
    requires y in raws && !Cut(y) && 2 <= j <= Count(Canons(raws, digest), d)
    ensures Resistant(y, LABEL_LENGTH, digest) != Variant(d, j, digest)
  {
    hide Resistant, Cut, Count, Fixed, Decimal, Sanitize, Dated, EndsInHash, HeadOf, NumberedText, Hashed, HexText,
      Timestamped;
    var x := TextBehind(raws, d, j, digest);
    CanonicalEnds(y, digest);
    ResistantIs(x, digest);
    if Cut(x) {
      HashIsAtTheEnd(HeadOf(x), digest(x));
      DatedIsNotHashed(Resistant(y, LABEL_LENGTH, digest));
    } else {
      CleanAndUncut(d, j);
      NumberedTextIs(d, j);
      var raw :| raw in raws && d == Resistant(raw, LABEL_LENGTH, digest);
      CanonicalEnds(raw, digest);
      DatedIsNotNumbered(Resistant(y, LABEL_LENGTH, digest), d, j);
    }
  }

  lemma ConfusedClashes(raws: seq<string>, digest: Digest)
    requires Confused(raws, digest)
    ensures Clash(Canons(raws, digest), digest)
  {
    hide Resistant, Cut, Count, Decimal, Sanitize, HeadOf, NumberedText, HexText;
    var cs := Canons(raws, digest);
    var c, k: nat, y :| 2 <= k <= Count(cs, c) && Hashed(raws, digest, y) && Meets(c, k, y, digest);
    var x := TextBehind(raws, c, k, digest);
    ResistantIs(x, digest);
    ResistantIs(y, digest);
    NumberedTextIs(c, k);
    if !Cut(x) {
      CleanAndUncut(c, k);
    }
    assert Resistant(x, LABEL_LENGTH, digest) == Resistant(y, LABEL_LENGTH, digest);
    if y in raws {
      var p :| 0 <= p < |raws| && raws[p] == y;
      CountedIsIn(cs, cs[p]);
      assert Variant(cs[p], 1, digest) == Variant(c, k, digest);
    } else {
      var d, j: nat :| 2 <= j <= Count(cs, d) && y == NumberedText(d, j);
      NumberedTextIs(d, j);
      assert Variant(d, j, digest) == Variant(c, k, digest);
    }
  }

  /** Names that end in their timestamps are distinct exactly when no numbered one meets the cut
      name of another text, that is, unless a digest comes out as a number or two texts share one. */
  lemma TimestampedNamesAreDistinctIff(raws: seq<string>, digest: Digest)
    requires forall raw :: raw in raws ==> Timestamped(raw)
    ensures NoDup(Named(Canons(raws, digest), digest)) <==> !Confused(raws, digest)
  {
    hide Named, Variant, Count, Confused, Timestamped, Resistant;
    var cs := Canons(raws, digest);
    NamesAreDistinctIff(cs, digest);
    if Confused(raws, digest) {
      ConfusedClashes(raws, digest);
    }
    if Clash(cs, digest) {
      var c, i: nat, d, j: nat :|
        (c, i) != (d, j) && 1 <= i <= Count(cs, c) && 1 <= j <= Count(cs, d)
        && Variant(c, i, digest) == Variant(d, j, digest);
      if j >= 2 {
        ClashConfuses(raws, c, i, d, j, digest);
      } else if i >= 2 {
        ClashConfuses(raws, d, j, c, i, digest);
      } else {
        FirstVariants(c, d, digest);
      }
    }
  }

  lemma FirstVariants(c: string, d: string, digest: Digest)
    ensures Variant(c, 1, digest) == c && Variant(d, 1, digest) == d
  {
  }

  /** So names that fit, with room for the longest number, are always distinct, ... */
  lemma FittingNamesAreDistinct(raws: seq<string>, digest: Digest)
    requires forall raw :: raw in raws ==>
      Timestamped(raw) && |Sanitize(raw, 253)| + 1 + |Decimal(|raws|)| <= LABEL_LENGTH
    ensures NoDup(Named(Canons(raws, digest), digest))
  {
    hide Named, Sanitize, Timestamped, Count, Decimal, Resistant;
    TimestampedNamesAreDistinctIff(raws, digest);
    forall y
      ensures !Hashed(raws, digest, y)
    {
      if Hashed(raws, digest, y) && y !in raws {
        var c, k: nat :| 2 <= k <= Count(Canons(raws, digest), c) && y == NumberedText(c, k);
        var x := TextBehind(raws, c, k, digest);
        var raw :| raw in raws && c == Resistant(raw, LABEL_LENGTH, digest);
        ResistantIs(raw, digest);
        CountIsBounded(Canons(raws, digest), c);
        DecimalGrows(k, |raws|);
        NumberedIsClean(c, k);
        LabelsAreFixed(y, 253);
      }
    }
  }

  /** ... and so are those of fewer than ten million occurrences whose hashed texts have digests of
      their own. */
  lemma TellingDigestsSuffice(raws: seq<string>, digest: Digest)
    requires |raws| < Pow10(7) && forall raw :: raw in raws ==> Timestamped(raw)
    requires forall x, y :: Hashed(raws, digest, x) && Hashed(raws, digest, y) && digest(x) == digest(y) ==> x == y
    ensures NoDup(Named(Canons(raws, digest), digest))
  {
    hide Named, Timestamped, Count, Decimal, Resistant, Cut, HeadOf;
    TimestampedNamesAreDistinctIff(raws, digest);
    if Confused(raws, digest) {
      var c, k: nat, y :|
        2 <= k <= Count(Canons(raws, digest), c) && Hashed(raws, digest, y) && Meets(c, k, y, digest);
      CountIsBounded(Canons(raws, digest), c);
      DecimalLength(k, 7);
    }
  }

  lemma {:induction false} CountIsBounded(cs: seq<string>, c: string)
    ensures Count(cs, c) <= |cs|
    decreases |cs|
  {
    if cs != [] {
      CountIsBounded(cs[..|cs| - 1], c);
    }
  }

  lemma {:induction false} DecimalGrows(m: nat, n: nat)
    requires m <= n
    ensures |Decimal(m)| <= |Decimal(n)|
    decreases n
  {
    if m >= 10 {
      DecimalGrows(m / 10, n / 10);
    }
  }
}
