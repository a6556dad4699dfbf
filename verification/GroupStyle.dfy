/**
 Titles and colours of tab groups (uniqueGroupStyle): the first free numbered title
 and the first free of Chrome's nine colours.
 */
module GroupStyle {

  datatype Style = Style(title: string, color: string)

  const COLORS: seq<string> := ["green", "blue", "purple", "orange", "pink", "cyan", "yellow", "red", "grey"]

  function Digit(d: nat): char
    requires d < 10
  {
    '0' + d as char
  }

  function Decimal(n: nat): (s: string)
    ensures s != []
    ensures n >= 10 ==> |s| > 1
    ensures n < 10 ==> |s| == 1
  {
    if n < 10 then [Digit(n)] else Decimal(n / 10) + [Digit(n % 10)]
  }

  lemma {:induction false} DecimalInjective(a: nat, b: nat)
    requires Decimal(a) == Decimal(b)
    ensures a == b
  {
    var s, t := Decimal(a), Decimal(b);
    assert s[|s| - 1] == t[|t| - 1];
    if a >= 10 {
      assert s[..|s| - 1] == Decimal(a / 10) && t[..|t| - 1] == Decimal(b / 10);
      DecimalInjective(a / 10, b / 10);
    }
  }

  /** The title tried in round `i`: the plain one, then numbered ones. */
  function Candidate(base: string, i: nat): string {
    if i <= 1 then base else base + " (" + Decimal(i) + ")"
  }

  lemma CandidateInjective(base: string, i: nat, j: nat)
    requires 1 <= i && 1 <= j && Candidate(base, i) == Candidate(base, j)
    ensures i == j
  {
    var s, t := Candidate(base, i), Candidate(base, j);
    if i > 1 && j > 1 {
      assert s[|base| + 2..|s| - 1] == Decimal(i) && t[|base| + 2..|t| - 1] == Decimal(j);
      DecimalInjective(i, j);
    } else {
      assert |s| == |t|;
    }
  }

  function Tried(base: string, i: nat): set<string> {
    set j | 1 <= j < i :: Candidate(base, j)
  }

  lemma {:induction false} TriedCount(base: string, i: nat)
    requires i >= 1
    ensures |Tried(base, i)| == i - 1
  {
    if i > 1 {
      TriedCount(base, i - 1);
      var last := Candidate(base, i - 1);
      if last in Tried(base, i - 1) {
        var j :| 1 <= j < i - 1 && Candidate(base, j) == last;
        CandidateInjective(base, j, i - 1);
        assert false;
      }
      assert Tried(base, i) == Tried(base, i - 1) + {last};
    }
  }

  ghost predicate AllTaken(base: string, titles: set<string>, i: nat) {
    forall j | 1 <= j < i :: Candidate(base, j) in titles
  }

  /** Distinct candidates: among |titles| + 1 of them one is free. */
  lemma TakenIsBounded(base: string, titles: set<string>, i: nat)
    requires i >= 1 && AllTaken(base, titles, i)
    ensures i <= |titles| + 1
  {
    TriedCount(base, i);
    var tried := Tried(base, i);
    assert tried <= titles;
    assert titles == tried + (titles - tried);
  }

  function FirstFree(base: string, titles: set<string>, i: nat): (k: nat)
    requires i >= 1 && AllTaken(base, titles, i)
    ensures i <= k <= |titles| + 1 && AllTaken(base, titles, k) && Candidate(base, k) !in titles
    decreases |titles| + 1 - i
  {
    TakenIsBounded(base, titles, i);
    if Candidate(base, i) in titles then
      TakenIsBounded(base, titles, i + 1);
      FirstFree(base, titles, i + 1)
    else i
  }

  lemma FirstFreeUnique(base: string, titles: set<string>, k: nat)
    requires k >= 1 && AllTaken(base, titles, k) && Candidate(base, k) !in titles
    ensures FirstFree(base, titles, 1) == k
  {
    var m := FirstFree(base, titles, 1);
    assert Candidate(base, m) !in titles && Candidate(base, k) !in titles;
  }

  function Base(clientName: string): string {
    var name := if clientName == "" then "Untitled" else clientName;
    "DSH Work \U{00B7} " + (if |name| > 30 then name[..30] + "\U{2026}" else name)
  }

  function Titles(taken: set<Style>): set<string> {
    set s | s in taken :: s.title
  }

  function Colors(taken: set<Style>): set<string> {
    set s | s in taken :: s.color
  }

  function FreeColor(colors: set<string>, i: nat): (c: string)
    requires i <= |COLORS| && forall j | 0 <= j < i :: COLORS[j] in colors
    ensures c in COLORS
    ensures |colors| < |COLORS| ==> c !in colors
    decreases |COLORS| - i
  {
    if i == |COLORS| then
      AllColorsCount(colors);
      COLORS[0]
    else if COLORS[i] in colors then FreeColor(colors, i + 1)
    else COLORS[i]
  }

  lemma AllColorsCount(colors: set<string>)
    requires forall j | 0 <= j < |COLORS| :: COLORS[j] in colors
    ensures |colors| >= |COLORS|
  {
    var g, b, p, o, k := COLORS[0], COLORS[1], COLORS[2], COLORS[3], COLORS[4];
    var c, y, r, a := COLORS[5], COLORS[6], COLORS[7], COLORS[8];
    assert g[0] == 'g' && b[0] == 'b' && p[1] == 'u' && o[0] == 'o' && k[1] == 'i' && c[0] == 'c' && y[0] == 'y' && r[0] == 'r' && a[2] == 'e' && g[2] == 'e';
    assert a[3] == 'y' && g[3] == 'e';
    var all := {g, b, p, o, k, c, y, r, a};
    assert |all| == 9;
    assert colors == all + (colors - all);
  }

  lemma MappedCount(taken: set<Style>)
    ensures |Colors(taken)| <= |taken|
  {
    if taken != {} {
      var s :| s in taken;
      var rest := taken - {s};
      MappedCount(rest);
      assert Colors(taken) == Colors(rest) + {s.color};
    }
  }

  /** The specification of uniqueGroupStyle. */
  function UniqueStyle(clientName: string, taken: set<Style>): (style: Style)
    ensures forall s | s in taken :: s.title != style.title
    ensures |taken| < |COLORS| ==> forall s | s in taken :: s.color != style.color
  {
    var base := Base(clientName);
    MappedCount(taken);
    Style(Candidate(base, FirstFree(base, Titles(taken), 1)), FreeColor(Colors(taken), 0))
  }

  /** A title nobody has taken is the client's name, cut after thirty characters, or that of an unnamed client. */
  lemma PlainTitle(clientName: string, taken: set<Style>)
    requires forall s | s in taken :: s.title != Base(clientName)
    ensures
      var name := if clientName != "" then clientName else "Untitled";
      UniqueStyle(clientName, taken).title == "DSH Work \U{00B7} " + (if |name| <= 30 then name else name[..30] + "\U{2026}")
  {
    assert Candidate(Base(clientName), 1) == Base(clientName);
    FirstFreeUnique(Base(clientName), Titles(taken), 1);
  }

  method UniqueGroupStyle(clientName: string, taken: seq<Style>) returns (style: Style, ghost tries: nat)
    ensures style == UniqueStyle(clientName, set s | s in taken)
    ensures tries <= |taken| + 1
  {
    var titles := set s | s in taken :: s.title;
    var base := Base(clientName);
    var title := base;
    var i := 2;
    TakenIsBounded(base, titles, 1);
    while title in titles
      invariant i >= 2 && title == Candidate(base, i - 1) && AllTaken(base, titles, i - 1)
      invariant i - 1 <= |titles| + 1
      decreases |titles| + 2 - i
    {
      TakenIsBounded(base, titles, i);
      title := base + " (" + Decimal(i) + ")";
      i := i + 1;
    }
    tries := i - 1;
    assert titles == Titles(set s | s in taken);
    FirstFreeUnique(base, titles, i - 1);
    TitleCount(taken);
    var colors := set s | s in taken :: s.color;
    assert colors == Colors(set s | s in taken);
    var n := 0;
    while n < |COLORS| && COLORS[n] in colors
      invariant n <= |COLORS| && forall j | 0 <= j < n :: COLORS[j] in colors
      invariant FreeColor(colors, n) == FreeColor(colors, 0)
    {
      n := n + 1;
    }
    style := Style(title, if n < |COLORS| then COLORS[n] else COLORS[0]);
  }

  lemma TitleCount(taken: seq<Style>)
    ensures |set s | s in taken :: s.title| <= |taken|
  {
    if taken != [] {
      var rest, last := taken[..|taken| - 1], taken[|taken| - 1];
      TitleCount(rest);
      assert taken == rest + [last];
      assert (set s | s in taken :: s.title) == (set s | s in rest :: s.title) + {last.title};
    }
  }
}
