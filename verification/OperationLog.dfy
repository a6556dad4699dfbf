/**
 The bounded transcript of a visible operation: at most 300 lines and 64 KiB of
 text, the oldest lines leaving first.
 */
module OperationLog {

  const MAX_LINES := 300
  const MAX_SIZE := 65536

  datatype State = State(operation: string, lines: seq<string>, size: int, lastStep: string)

  const Fresh := State("", [], 0, "")

  /** White space and line terminators, as JavaScript's trim removes them. */
  predicate IsSpace(c: char) {
    || '\t' <= c <= '\r' || c in {' ', '\U{00A0}', '\U{1680}', '\U{2028}', '\U{2029}', '\U{202F}', '\U{205F}', '\U{3000}', '\U{FEFF}'}
    || '\U{2000}' <= c <= '\U{200A}'
  }

  /** What trim leaves nothing of. */
  predicate OnlySpace(s: string) {
    forall i | 0 <= i < |s| :: IsSpace(s[i])
  }

  /** A line is kept if it has a visible ASCII character, and skipped if it is made of blanks and tabs. */
  lemma VisibleLinesAreKept(s: string)
    ensures (exists i :: 0 <= i < |s| && '!' <= s[i] <= '~') ==> !OnlySpace(s)
    ensures (forall i | 0 <= i < |s| :: s[i] == ' ' || s[i] == '\t') ==> OnlySpace(s)
  {
  }

  function Stamp(time: string, line: string): string {
    time + "  " + line
  }

  /** The entries of one message, given as its lines: blank lines are skipped, the others stamped. */
  function Entries(time: string, message: seq<string>): seq<string> {
    if message == [] then [] else
      var rest, line := Entries(time, message[..|message| - 1]), message[|message| - 1];
      if OnlySpace(line) then rest else rest + [Stamp(time, line)]
  }

  /** Length of the text, one line break per line. */
  function Size(lines: seq<string>): nat {
    if lines == [] then 0 else |lines[0]| + 1 + Size(lines[1..])
  }

  predicate Fits(lines: seq<string>) {
    |lines| <= MAX_LINES && Size(lines) <= MAX_SIZE
  }

  function NonBlank(message: seq<string>): nat {
    if message == [] then 0 else NonBlank(message[..|message| - 1]) + (if OnlySpace(message[|message| - 1]) then 0 else 1)
  }

  lemma EntriesLast(message: seq<string>, line: string, time: string)
    ensures Entries(time, message + [line]) == Entries(time, message) + (if OnlySpace(line) then [] else [Stamp(time, line)])
    ensures NonBlank(message + [line]) == NonBlank(message) + (if OnlySpace(line) then 0 else 1)
  {
    assert (message + [line])[..|message|] == message;
  }

  /** Exactly the lines that are not blank become entries, stamped, each at the place that counts the ones before it. */
  lemma {:induction false} EntriesAreNonBlankLines(time: string, message: seq<string>)
    ensures |Entries(time, message)| == NonBlank(message)
    ensures forall i | 0 <= i < |message| && !OnlySpace(message[i]) ::
      NonBlank(message[..i]) < |Entries(time, message)|
      && Entries(time, message)[NonBlank(message[..i])] == time + "  " + message[i]
  {
    if message != [] {
      var front, line := message[..|message| - 1], message[|message| - 1];
      EntriesAreNonBlankLines(time, front);
      assert message == front + [line];
      EntriesLast(front, line, time);
      forall i | 0 <= i < |message| && !OnlySpace(message[i])
        ensures NonBlank(message[..i]) < |Entries(time, message)|
        ensures Entries(time, message)[NonBlank(message[..i])] == time + "  " + message[i]
      {
        if i < |front| {
          assert message[..i] == front[..i] && message[i] == front[i];
        } else {
          assert message[..i] == front;
        }
      }
    }
  }

  // ----- Reference: the whole transcript of an operation, and what of it is shown --------

  datatype Event = Append(id: string, time: string, message: seq<string>, step: string) | Clear

  datatype Transcript = Transcript(operation: string, all: seq<string>, lastStep: string)

  /** Everything written since the operation began; a repeated step writes nothing. */
  function Whole(es: seq<Event>): Transcript {
    if es == [] then Transcript("", [], "") else
      var before, e := Whole(es[..|es| - 1]), es[|es| - 1];
      match e
      case Clear => Transcript("", [], "")
      case Append(id, time, message, step) => Extend(before, id, time, message, step)
  }

  function Extend(before: Transcript, id: string, time: string, message: seq<string>, step: string): Transcript {
    var t := if id == before.operation then before else Transcript(id, [], "");
    if step != "" && step == t.lastStep then t
    else Transcript(id, t.all + Entries(time, message), if step != "" then step else t.lastStep)
  }

  function Fit(h: seq<string>): seq<string> {
    if Fits(h) then h else Fit(h[1..])
  }

  /** The two bounds of the transcript. */
  lemma FitsIff(lines: seq<string>)
    ensures Fits(lines) <==> |lines| <= 300 && Size(lines) <= 64 * 1024
  {
  }

  ghost predicate LongestFitting(h: seq<string>, shown: seq<string>) {
    exists k :: 0 <= k <= |h| && shown == h[k..] && Fits(h[k..]) && forall j | 0 <= j < k :: !Fits(h[j..])
  }

  lemma {:induction false} FitIsLongest(h: seq<string>)
    ensures LongestFitting(h, Fit(h))
  {
    if Fits(h) {
      assert h[0..] == h;
    } else {
      FitIsLongest(h[1..]);
      var k :| 0 <= k <= |h[1..]| && Fit(h[1..]) == h[1..][k..] && Fits(h[1..][k..]) && forall j | 0 <= j < k :: !Fits(h[1..][j..]);
      assert h[1..][k..] == h[k + 1..] && h[0..] == h;
      forall j | 0 <= j < k + 1 ensures !Fits(h[j..]) {
        if j > 0 {
          assert h[1..][j - 1..] == h[j..];
        }
      }
    }
  }

  lemma {:induction false} SizeOfConcat(a: seq<string>, b: seq<string>)
    ensures Size(a + b) == Size(a) + Size(b)
  {
    if a == [] {
      assert a + b == b;
    } else {
      assert (a + b)[1..] == a[1..] + b;
      SizeOfConcat(a[1..], b);
    }
  }

  /** Lines dropped early would have been dropped anyway. */
  lemma {:induction false} FitFirst(h: seq<string>, more: seq<string>)
    ensures Fit(Fit(h) + more) == Fit(h + more)
  {
    if !Fits(h) {
      SizeOfConcat(h, more);
      assert (h + more)[1..] == h[1..] + more;
      FitFirst(h[1..], more);
    }
  }

  lemma SizeOfOneMore(lines: seq<string>, entry: string)
    ensures Size(lines + [entry]) == Size(lines) + |entry| + 1
  {
    SizeOfConcat(lines, [entry]);
  }

  // ----- The transcript as kept -------------------------------------------------------------

  /** `append`, with eviction at its end. */
  function AppendTo(s: State, id: string, time: string, message: seq<string>, step: string): State {
    var t := if id == s.operation then s else State(id, [], 0, "");
    if step != "" && step == t.lastStep then t else
      var kept := Fit(t.lines + Entries(time, message));
      State(id, kept, Size(kept), if step != "" then step else t.lastStep)
  }

  function Run(es: seq<Event>): State {
    if es == [] then Fresh else
      match es[|es| - 1]
      case Clear => Fresh
      case Append(id, time, message, step) => AppendTo(Run(es[..|es| - 1]), id, time, message, step)
  }

  ghost predicate Shows(s: State, t: Transcript) {
    s.operation == t.operation && s.lastStep == t.lastStep && s.lines == Fit(t.all) && s.size == Size(s.lines)
  }

  lemma AppendShows(s: State, t: Transcript, id: string, time: string, message: seq<string>, step: string)
    requires Shows(s, t)
    ensures Shows(AppendTo(s, id, time, message, step), Extend(t, id, time, message, step))
  {
    FitFirst(if id == t.operation then t.all else [], Entries(time, message));
  }

  /** After every run the transcript shows the longest tail of the operation's output that fits. */
  lemma {:induction false} ShowsLongestTail(es: seq<Event>)
    ensures Shows(Run(es), Whole(es)) && LongestFitting(Whole(es).all, Run(es).lines)
  {
    FitIsLongest(Whole(es).all);
    if es != [] && es[|es| - 1].Append? {
      var front, e := es[..|es| - 1], es[|es| - 1];
      ShowsLongestTail(front);
      AppendShows(Run(front), Whole(front), e.id, e.time, e.message, e.step);
    }
  }

  class Log {
    var operation: string
    var lines: seq<string>
    var size: int
    var lastStep: string

    ghost function View(): State
      reads this
    {
      State(operation, lines, size, lastStep)
    }

    /** The size counter is right. */
    ghost predicate Valid()
      reads this
    {
      size == Size(lines)
    }

    constructor ()
      ensures Valid() && View() == Fresh
    {
      operation, lines, size, lastStep := "", [], 0, "";
    }

    /** Pushes the entries of a message. */
    method Push(time: string, message: seq<string>)
      requires Valid()
      modifies this`lines, this`size
      ensures Valid() && lines == old(lines) + Entries(time, message)
    {
      for i := 0 to |message|
        invariant Valid() && lines == old(lines) + Entries(time, message[..i])
      {
        assert message[..i + 1][..i] == message[..i];
        if !OnlySpace(message[i]) {
          var entry := Stamp(time, message[i]);
          SizeOfOneMore(lines, entry);
          lines := lines + [entry];
          size := size + |entry| + 1;
        }
      }
      assert message[..|message|] == message;
    }

    /** Shifts the oldest lines out until the rest fits. */
    method Evict()
      requires Valid()
      modifies this`lines, this`size
      ensures Valid() && lines == Fit(old(lines))
    {
      while |lines| > MAX_LINES || size > MAX_SIZE
        invariant Valid() && Fit(lines) == Fit(old(lines))
        decreases |lines|
      {
        size := size - (|lines[0]| + 1);
        lines := lines[1..];
      }
    }

    method AppendMessage(id: string, time: string, message: seq<string>, step: string)
      requires Valid()
      modifies this
      ensures Valid() && View() == AppendTo(old(View()), id, time, message, step)
    {
      if id != operation {
        operation := id;
        lines, size, lastStep := [], 0, "";
      }
      if step != "" && step == lastStep {
        return;
      }
      if step != "" {
        lastStep := step;
      }
      Push(time, message);
      Evict();
    }

    method ClearAll()
      modifies this
      ensures Valid() && View() == Fresh
    {
      operation := "";
      lines, size, lastStep := [], 0, "";
    }

    method Drive(es: seq<Event>)
      requires Valid() && View() == Fresh
      modifies this
      ensures View() == Run(es) && LongestFitting(Whole(es).all, lines)
    {
      for i := 0 to |es|
        invariant Valid() && View() == Run(es[..i])
      {
        assert es[..i + 1][..i] == es[..i];
        match es[i] {
          case Clear => ClearAll();
          case Append(id, time, message, step) => AppendMessage(id, time, message, step);
        }
      }
      assert es[..|es|] == es;
      ShowsLongestTail(es);
    }
  }
}
