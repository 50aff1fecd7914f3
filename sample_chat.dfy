/** The example-dialogue segmenter behind `splitSampleChat`: a transcript is read
    line by line and cut into role-tagged turns. A `<START>` line (any letter
    casing) always becomes its own system notice turn; a `Name:` line opens a new
    turn for that speaker; any other line continues the open turn, or the
    unattributed preamble when no turn is open. The wording of the notice is not
    fixed by this model: it is part of the `Context`. */
module SampleChat {
  import opened Text

  datatype Role = System | User | Character

  /** One atomic, role-tagged utterance. */
  datatype Turn = Turn(role: Role, name: string, content: string)

  /** The character name, the user ("sender") name and the notice text that a
      `<START>` line turns into. */
  datatype Context = Context(character: string, sender: string, notice: string)

  /** How a single transcript line is read. */
  datatype LineKind =
    | Marker
    | Speaker(role: Role, name: string, seed: string)
    | Continuation(text: string)

  const SystemName: string := "System"
  const MarkerToken: string := "<start>"

  /** The speaker label `name` is the one that belongs to `role`. */
  predicate NamedFor(role: Role, name: string, c: Context) {
    match role
    case System => name == SystemName
    case User => name == c.sender
    case Character => name == c.character
  }

  /** Classifies a line. A marker wins over everything; then the labels are
      tried in the order "System", the user name, the character name, each
      matched case-sensitively and followed directly by a colon. */
  function Classify(line: string, c: Context): (k: LineKind)
    ensures k.Marker? ==> ToLower(Trim(line)) == MarkerToken
    ensures k.Speaker? ==> HasLabel(Trim(line), k.name) && NamedFor(k.role, k.name, c)
  {
    var t := Trim(line);
    if |t| == |MarkerToken| && ToLower(t) == MarkerToken then Marker
    else if HasLabel(t, SystemName) then Speaker(System, SystemName, TrimStart(t[|SystemName| + 1..]))
    else if HasLabel(t, c.sender) then Speaker(User, c.sender, TrimStart(t[|c.sender| + 1..]))
    else if HasLabel(t, c.character) then Speaker(Character, c.character, TrimStart(t[|c.character| + 1..]))
    else Continuation(t)
  }

  /** What a classification means: a marker is exactly a line that reads
      `<start>` in any letter casing once trimmed; a speaker line starts with
      its label and a colon, its seed is the text after the colon, and its
      label belongs to its role; a label earlier in the order always wins; a
      continuation carries no label at all. */
  lemma ClassifySpec(line: string, c: Context)
    ensures var k := Classify(line, c);
      && (k.Marker? <==> ToLower(Trim(line)) == MarkerToken)
      && (k.Speaker? ==>
            && HasLabel(Trim(line), k.name)
            && k.seed == TrimStart(Trim(line)[|k.name| + 1..])
            && NamedFor(k.role, k.name, c))
      && (k.Speaker? && k.role != System ==> !HasLabel(Trim(line), SystemName))
      && (k.Speaker? && k.role == Character ==> !HasLabel(Trim(line), c.sender))
      && (k.Continuation? ==>
            && k.text == Trim(line)
            && !HasLabel(Trim(line), SystemName)
            && !HasLabel(Trim(line), c.sender)
            && !HasLabel(Trim(line), c.character))
  {
    ToLowerSpec(Trim(line));
  }

  /** The text collected so far: either unattributed preamble, or the content
      of the turn opened by the last speaker line. */
  datatype Open =
    | Preamble(text: string)
    | Speaking(role: Role, name: string, text: string)

  /** Adds one more line of text to a buffer, newline-separated. */
  function Append(buf: string, text: string): string {
    if buf == [] then text else buf + "\n" + text
  }

  function Extend(o: Open, text: string): Open {
    match o
    case Preamble(b) => Preamble(Append(b, text))
    case Speaking(r, n, b) => Speaking(r, n, Append(b, text))
  }

  /** Emits the open buffer as a turn, unless it holds only white space.
      Preamble text becomes a system turn. */
  function Close(o: Open): seq<Turn> {
    if IsBlank(o.text) then []
    else match o
      case Preamble(b) => [Turn(System, SystemName, Trim(b))]
      case Speaking(r, n, b) => [Turn(r, n, Trim(b))]
  }

  function Notice(c: Context): Turn {
    Turn(System, SystemName, c.notice)
  }

  /** The scanner state: the turns emitted so far and the open buffer. */
  datatype Scanner = Scanner(out: seq<Turn>, open: Open)

  const Start: Scanner := Scanner([], Preamble([]))

  function Step(s: Scanner, k: LineKind, notice: string): Scanner {
    match k
    case Marker => Scanner(s.out + Close(s.open) + [Turn(System, SystemName, notice)], Preamble([]))
    case Speaker(r, n, seed) => Scanner(s.out + Close(s.open), Speaking(r, n, seed))
    case Continuation(t) => Scanner(s.out, Extend(s.open, t))
  }

  /** Feeds classified lines to the scanner, top to bottom. */
  function Run(s: Scanner, ks: seq<LineKind>, notice: string): Scanner
    decreases |ks|
  {
    if ks == [] then s else Run(Step(s, ks[0], notice), ks[1..], notice)
  }

  function Finish(s: Scanner): seq<Turn> {
    s.out + Close(s.open)
  }

  /** Classifies every line, keeping their order. */
  function Classified(lines: seq<string>, c: Context): seq<LineKind> {
    seq(|lines|, i requires 0 <= i < |lines| => Classify(lines[i], c))
  }

  /** The turns of a sequence of classified lines. */
  function SegmentKinds(ks: seq<LineKind>, notice: string): seq<Turn> {
    Finish(Run(Start, ks, notice))
  }

  /** The turns of a transcript given as lines: never more turns than lines. */
  function Segment(lines: seq<string>, c: Context): (r: seq<Turn>)
    ensures |r| <= |lines|
  {
    RunBound(Start, Classified(lines, c), c.notice);
    CloseBound(Run(Start, Classified(lines, c), c.notice).open);
    SegmentKinds(Classified(lines, c), c.notice)
  }

  /** The turns of a transcript given as one text blob, whatever its line
      endings. A transcript of white space alone has no turns. */
  function SegmentText(transcript: string, c: Context): (r: seq<Turn>)
    ensures (forall i :: 0 <= i < |transcript| ==> IsSpace(transcript[i])) ==> r == []
  {
    var lines := SplitLines(NormalizeNewlines(transcript));
    if forall i :: 0 <= i < |transcript| ==> IsSpace(transcript[i]) then
      BlankLines(transcript, lines, c);
      Segment(lines, c)
    else Segment(lines, c)
  }

  /** Extends the open buffer by the text of each continuation in turn. */
  function ExtendAll(o: Open, ks: seq<LineKind>): Open
    requires forall i :: 0 <= i < |ks| ==> ks[i].Continuation?
    decreases |ks|
  {
    if ks == [] then o else ExtendAll(Extend(o, ks[0].text), ks[1..])
  }

  predicate AllContinuation(ks: seq<LineKind>) {
    forall i :: 0 <= i < |ks| ==> ks[i].Continuation?
  }

  // ---------------------------------------------------------------------------
  // Structure of the scan

  /** How many turns the open buffer may still emit: none for an empty
      preamble, at most one otherwise. */
  function Pending(o: Open): nat {
    if o.Preamble? && o.text == [] then 0 else 1
  }

  lemma CloseBound(o: Open)
    ensures |Close(o)| <= Pending(o)
  {
    if o.Preamble? && o.text == [] {
      assert Trim(o.text) == [];
    }
  }

  /** Each line adds at most one turn, emitted or pending. */
  lemma {:induction false} RunBound(s: Scanner, ks: seq<LineKind>, notice: string)
    ensures |Run(s, ks, notice).out| + Pending(Run(s, ks, notice).open) <= |s.out| + Pending(s.open) + |ks|
    decreases |ks|
  {
    if ks != [] {
      CloseBound(s.open);
      RunBound(Step(s, ks[0], notice), ks[1..], notice);
    }
  }

  /** A run of empty continuations leaves an empty preamble empty. */
  lemma {:induction false} EmptyContinuations(ks: seq<LineKind>)
    requires forall i :: 0 <= i < |ks| ==> ks[i] == Continuation([])
    ensures ExtendAll(Preamble([]), ks) == Preamble([])
    decreases |ks|
  {
    if ks != [] {
      EmptyContinuations(ks[1..]);
    }
  }

  /** A line of white space alone is an empty continuation. */
  lemma BlankLine(line: string, c: Context)
    requires forall j :: 0 <= j < |line| ==> IsSpace(line[j])
    ensures Classify(line, c) == Continuation([])
  {
    BlankIffAllSpace(line);
  }

  /** Splitting text of white space alone gives lines of white space alone. */
  lemma BlankSplit(transcript: string)
    requires forall i :: 0 <= i < |transcript| ==> IsSpace(transcript[i])
    ensures var lines := SplitLines(NormalizeNewlines(transcript));
      forall i, j :: 0 <= i < |lines| && 0 <= j < |lines[i]| ==> IsSpace(lines[i][j])
  {
    var n := NormalizeNewlines(transcript);
    var lines := SplitLines(n);
    SplitLinesChars(n);
    forall i, j | 0 <= i < |lines| && 0 <= j < |lines[i]| ensures IsSpace(lines[i][j]) {
      assert lines[i][j] in n;
    }
  }

  /** Lines made of white space alone yield no turns. */
  lemma BlankLines(transcript: string, lines: seq<string>, c: Context)
    requires forall i :: 0 <= i < |transcript| ==> IsSpace(transcript[i])
    requires lines == SplitLines(NormalizeNewlines(transcript))
    ensures Segment(lines, c) == []
  {
    BlankSplit(transcript);
    var ks := Classified(lines, c);
    forall i | 0 <= i < |lines| ensures ks[i] == Continuation([]) {
      BlankLine(lines[i], c);
    }
    ContinuationsExtend(Start, ks, c.notice);
    EmptyContinuations(ks);
    assert Close(Preamble([])) == [];
  }

  /** What the scanner has emitted is never revisited. */
  lemma {:induction false} RunKeepsOutput(out: seq<Turn>, o: Open, ks: seq<LineKind>, notice: string)
    ensures Run(Scanner(out, o), ks, notice)
         == Scanner(out + Run(Scanner([], o), ks, notice).out, Run(Scanner([], o), ks, notice).open)
    decreases |ks|
  {
    if ks != [] {
      var d := Step(Scanner([], o), ks[0], notice);
      StepKeepsOutput(out, o, ks[0], notice);
      var r := Run(Scanner([], d.open), ks[1..], notice);
      RunKeepsOutput(out + d.out, d.open, ks[1..], notice);
      RunKeepsOutput(d.out, d.open, ks[1..], notice);
      calc {
        Run(Scanner(out, o), ks, notice);
        Run(Scanner(out + d.out, d.open), ks[1..], notice);
        Scanner(out + d.out + r.out, r.open);
        { assert out + d.out + r.out == out + (d.out + r.out); }
        Scanner(out + Run(Scanner(d.out, d.open), ks[1..], notice).out, r.open);
      }
    }
  }

  lemma StepKeepsOutput(out: seq<Turn>, o: Open, k: LineKind, notice: string)
    ensures Step(Scanner(out, o), k, notice)
         == Scanner(out + Step(Scanner([], o), k, notice).out, Step(Scanner([], o), k, notice).open)
  {
    match k
    case Marker =>
      assert out + Close(o) + [Turn(System, SystemName, notice)] == out + ([] + Close(o) + [Turn(System, SystemName, notice)]);
    case Speaker(_, _, _) =>
      assert out + Close(o) == out + ([] + Close(o));
    case Continuation(_) =>
  }

  /** Scanning a transcript in two pieces is scanning it whole. */
  lemma {:induction false} RunConcat(s: Scanner, xs: seq<LineKind>, ys: seq<LineKind>, notice: string)
    ensures Run(s, xs + ys, notice) == Run(Run(s, xs, notice), ys, notice)
    decreases |xs|
  {
    if xs != [] {
      assert (xs + ys)[0] == xs[0];
      assert (xs + ys)[1..] == xs[1..] + ys;
      RunConcat(Step(s, xs[0], notice), xs[1..], ys, notice);
    } else {
      assert xs + ys == ys;
    }
  }

  /** A marker is a hard boundary: the sequence splits there into two
      independently segmented halves with the notice turn between them. */
  lemma MarkerSplitsKinds(xs: seq<LineKind>, ys: seq<LineKind>, notice: string)
    ensures SegmentKinds(xs + [Marker] + ys, notice)
         == SegmentKinds(xs, notice) + [Turn(System, SystemName, notice)] + SegmentKinds(ys, notice)
  {
    var head := SegmentKinds(xs, notice) + [Turn(System, SystemName, notice)];
    RunConcat(Start, xs, [Marker], notice);
    RunConcat(Start, xs + [Marker], ys, notice);
    assert Run(Start, xs + [Marker], notice) == Scanner(head, Preamble([]));
    RunKeepsOutput(head, Preamble([]), ys, notice);
  }

  /** A speaker line closes whatever came before it. */
  lemma SpeakerSplitsKinds(xs: seq<LineKind>, k: LineKind, ys: seq<LineKind>, notice: string)
    requires k.Speaker?
    ensures SegmentKinds(xs + [k] + ys, notice) == SegmentKinds(xs, notice) + SegmentKinds([k] + ys, notice)
  {
    var sp := Speaking(k.role, k.name, k.seed);
    RunConcat(Start, xs, [k], notice);
    RunConcat(Start, xs + [k], ys, notice);
    assert Run(Start, xs + [k], notice) == Scanner(SegmentKinds(xs, notice), sp);
    RunKeepsOutput(SegmentKinds(xs, notice), sp, ys, notice);
    assert Close(Preamble([])) == [];
    assert Step(Start, k, notice) == Scanner([], sp);
    assert ([k] + ys)[0] == k && ([k] + ys)[1..] == ys;
    assert Run(Start, [k] + ys, notice) == Run(Scanner([], sp), ys, notice);
  }

  /** A line that closes whatever turn is open: a speaker line or a marker. */
  predicate OpensTurn(k: LineKind) {
    k.Speaker? || k.Marker?
  }

  lemma NoKinds(notice: string)
    ensures SegmentKinds([], notice) == []
  {
    assert Close(Preamble([])) == [];
  }

  /** A sequence of classified lines splits, into two independently segmented
      halves, before any line that opens a turn. */
  lemma SplitsBeforeOpening(xs: seq<LineKind>, ys: seq<LineKind>, notice: string)
    requires ys != [] && OpensTurn(ys[0])
    ensures SegmentKinds(xs + ys, notice) == SegmentKinds(xs, notice) + SegmentKinds(ys, notice)
  {
    assert xs + ys == xs + [ys[0]] + ys[1..];
    assert ys == [] + [ys[0]] + ys[1..];
    if ys[0].Speaker? {
      SpeakerSplitsKinds(xs, ys[0], ys[1..], notice);
    } else {
      MarkerSplitsKinds(xs, ys[1..], notice);
      MarkerSplitsKinds([], ys[1..], notice);
      NoKinds(notice);
    }
  }

  /** A lone line: a marker is the notice turn, a speaker line with text is
      one turn, a line of text is a system turn and a blank line is nothing. */
  lemma OneKind(k: LineKind, notice: string)
    ensures k.Marker? ==> SegmentKinds([k], notice) == [Turn(System, SystemName, notice)]
    ensures k.Speaker? && TrimmedText(k.seed) ==> SegmentKinds([k], notice) == [Turn(k.role, k.name, k.seed)]
    ensures k.Continuation? && TrimmedText(k.text) ==> SegmentKinds([k], notice) == [Turn(System, SystemName, k.text)]
    ensures k == Continuation([]) ==> SegmentKinds([k], notice) == []
  {
    assert Close(Preamble([])) == [];
    match k
    case Marker =>
      assert Run(Start, [k], notice) == Scanner([Turn(System, SystemName, notice)], Preamble([]));
    case Speaker(r, n, seed) =>
      assert Run(Start, [k], notice) == Scanner([], Speaking(r, n, seed));
      if TrimmedText(seed) {
        TrimmedIsFixed(seed);
      }
    case Continuation(t) =>
      assert Run(Start, [k], notice) == Scanner([], Preamble(t));
      if TrimmedText(t) {
        TrimmedIsFixed(t);
      } else if t == [] {
        TrimmedIsFixed(t);
      }
  }

  /** The turns from position i on are those of line i alone followed by
      those of the rest, when the next line (if any) opens a turn. */
  lemma KindsAt(ks: seq<LineKind>, i: nat, notice: string)
    requires i < |ks| && (i + 1 == |ks| || OpensTurn(ks[i + 1]) || ks[i].Marker?)
    ensures SegmentKinds(ks[i..], notice) == SegmentKinds([ks[i]], notice) + SegmentKinds(ks[i + 1..], notice)
  {
    assert ks[i..] == [ks[i]] + ks[i + 1..];
    if i + 1 == |ks| {
      assert ks[i + 1..] == [];
      assert [ks[i]] + ks[i + 1..] == [ks[i]];
      NoKinds(notice);
    } else if OpensTurn(ks[i + 1]) {
      SplitsBeforeOpening([ks[i]], ks[i + 1..], notice);
    } else {
      assert [ks[i]] + ks[i + 1..] == [] + [Marker] + ks[i + 1..];
      MarkerSplitsKinds([], ks[i + 1..], notice);
      NoKinds(notice);
      OneKind(ks[i], notice);
    }
  }

  /** A blank line before a line that opens a turn contributes nothing. */
  lemma BlankBefore(rest: seq<LineKind>, notice: string)
    requires rest != [] && OpensTurn(rest[0])
    ensures SegmentKinds([Continuation([])] + rest, notice) == SegmentKinds(rest, notice)
  {
    SplitsBeforeOpening([Continuation([])], rest, notice);
    OneKind(Continuation([]), notice);
  }

  /** The turn a line yields when it stands alone. */
  function TurnOf(k: LineKind, notice: string): Turn {
    match k
    case Marker => Turn(System, SystemName, notice)
    case Speaker(r, n, t) => Turn(r, n, t)
    case Continuation(t) => Turn(System, SystemName, t)
  }

  /** A line that yields a turn on its own: a marker, or a line with trimmed,
      non-empty text. */
  predicate Yields(k: LineKind) {
    match k
    case Marker => true
    case Speaker(_, _, t) => TrimmedText(t)
    case Continuation(t) => TrimmedText(t)
  }

  /** Every line after the first opens a turn or follows a marker, so no two
      lines share a turn. */
  predicate Separated(ks: seq<LineKind>) {
    forall i :: 0 < i < |ks| ==> OpensTurn(ks[i]) || ks[i - 1].Marker?
  }

  /** When no two lines share a turn and each yields one, the transcript has
      exactly one turn per line, in order. */
  lemma {:induction false} OneTurnPerLine(ks: seq<LineKind>, notice: string)
    requires Separated(ks)
    requires forall i :: 0 <= i < |ks| ==> Yields(ks[i])
    ensures |SegmentKinds(ks, notice)| == |ks|
    ensures forall i :: 0 <= i < |ks| ==> SegmentKinds(ks, notice)[i] == TurnOf(ks[i], notice)
    decreases |ks|
  {
    if ks == [] {
      NoKinds(notice);
    } else {
      assert ks[0..] == ks;
      KindsAt(ks, 0, notice);
      OneKind(ks[0], notice);
      assert SegmentKinds([ks[0]], notice) == [TurnOf(ks[0], notice)];
      var rest := ks[1..];
      assert Separated(rest) by {
        forall i | 0 < i < |rest| ensures OpensTurn(rest[i]) || rest[i - 1].Marker? {
          assert rest[i] == ks[i + 1] && rest[i - 1] == ks[i];
        }
      }
      OneTurnPerLine(rest, notice);
    }
  }

  /** A speaker line and one line of text under it are one turn whose content
      is the two texts joined by a line break. */
  lemma SpeakerThenText(r: Role, n: string, t: string, q: string, notice: string)
    requires TrimmedText(t) && TrimmedText(q)
    ensures SegmentKinds([Speaker(r, n, t), Continuation(q)], notice) == [Turn(r, n, t + "\n" + q)]
  {
    var body := t + "\n" + q;
    var ks := [Speaker(r, n, t), Continuation(q)];
    var s1 := Step(Start, ks[0], notice);
    assert s1 == Scanner([], Speaking(r, n, t)) by {
      assert Close(Preamble([])) == [];
    }
    assert ks[1..] == [Continuation(q)];
    assert Run(Start, ks, notice) == Run(s1, [Continuation(q)], notice);
    assert Run(s1, [Continuation(q)], notice) == Step(s1, Continuation(q), notice);
    assert body[0] == t[0] && body[|body| - 1] == q[|q| - 1];
    TrimmedIsFixed(body);
  }

  /** Lines classified one by one. */
  lemma ClassifiedIs(lines: seq<string>, ks: seq<LineKind>, c: Context)
    requires |lines| == |ks|
    requires forall i :: 0 <= i < |lines| ==> Classify(lines[i], c) == ks[i]
    ensures Classified(lines, c) == ks
  {
  }

  lemma ClassifiedAppend(xs: seq<string>, ys: seq<string>, c: Context)
    ensures Classified(xs + ys, c) == Classified(xs, c) + Classified(ys, c)
  {
  }

  lemma ClassifiedConcat(xs: seq<string>, l: string, ys: seq<string>, c: Context)
    ensures Classified(xs + [l] + ys, c) == Classified(xs, c) + [Classify(l, c)] + Classified(ys, c)
  {
    ClassifiedAppend(xs + [l], ys, c);
    ClassifiedAppend(xs, [l], c);
    assert Classified([l], c) == [Classify(l, c)] + Classified([], c);
  }

  /** A `<START>` line, in any letter casing, is a hard boundary: the
      transcript splits there into two independently segmented halves with the
      notice turn between them. So every marker, the first or a later one,
      yields its own notice turn in transcript order, and neither the text
      before it nor the text after it is ever merged with the notice. */
  lemma MarkerSplits(xs: seq<string>, m: string, ys: seq<string>, c: Context)
    requires ToLower(Trim(m)) == MarkerToken
    ensures Segment(xs + [m] + ys, c) == Segment(xs, c) + [Notice(c)] + Segment(ys, c)
  {
    ClassifySpec(m, c);
    MarkerSplitsKinds(Classified(xs, c), Classified(ys, c), c.notice);
    ClassifiedConcat(xs, m, ys, c);
  }

  /** A speaker line always closes what came before it, even when the same
      speaker spoke last: consecutive utterances are never merged. */
  lemma SpeakerSplits(xs: seq<string>, l: string, ys: seq<string>, c: Context)
    requires Classify(l, c).Speaker?
    ensures Segment(xs + [l] + ys, c) == Segment(xs, c) + Segment([l] + ys, c)
  {
    ClassifiedConcat(xs, l, ys, c);
    ClassifiedConcat([], l, ys, c);
    assert [] + [l] + ys == [l] + ys;
    SpeakerSplitsKinds(Classified(xs, c), Classify(l, c), Classified(ys, c), c.notice);
  }

  /** Continuations only grow the open buffer. */
  lemma {:induction false} ContinuationsExtend(s: Scanner, ks: seq<LineKind>, notice: string)
    requires AllContinuation(ks)
    ensures Run(s, ks, notice) == Scanner(s.out, ExtendAll(s.open, ks))
    decreases |ks|
  {
    if ks != [] {
      ContinuationsExtend(Step(s, ks[0], notice), ks[1..], notice);
    }
  }

  lemma {:induction false} ExtendAllKeepsKind(o: Open, ks: seq<LineKind>)
    requires AllContinuation(ks)
    ensures o.Preamble? ==> ExtendAll(o, ks).Preamble?
    ensures o.Speaking? ==>
      (ExtendAll(o, ks).Speaking? && ExtendAll(o, ks).role == o.role && ExtendAll(o, ks).name == o.name)
    ensures ExtendAll(o, ks).text == ExtendAll(Preamble(o.text), ks).text
    decreases |ks|
  {
    if ks != [] {
      ExtendAllKeepsKind(Extend(o, ks[0].text), ks[1..]);
      ExtendAllKeepsKind(Preamble(Append(o.text, ks[0].text)), ks[1..]);
    }
  }

  /** Text with no marker and no speaker line is scene-setting preamble: it
      becomes one system turn (nothing at all if it is only white space). */
  lemma PreambleIsSystemTurn(lines: seq<string>, c: Context)
    requires AllContinuation(Classified(lines, c))
    ensures var body := ExtendAll(Preamble([]), Classified(lines, c)).text;
      Segment(lines, c) == if IsBlank(body) then [] else [Turn(System, SystemName, Trim(body))]
  {
    ContinuationsExtend(Start, Classified(lines, c), c.notice);
    ExtendAllKeepsKind(Preamble([]), Classified(lines, c));
  }

  /** A speaker line and the continuation lines under it form exactly one turn
      for that speaker, whose content starts with the text after the colon. */
  lemma SpeakerTurn(l: string, rest: seq<string>, c: Context)
    requires Classify(l, c).Speaker?
    requires AllContinuation(Classified(rest, c))
    ensures var k := Classify(l, c);
      var body := ExtendAll(Preamble(k.seed), Classified(rest, c)).text;
      Segment([l] + rest, c) == if IsBlank(body) then [] else [Turn(k.role, k.name, Trim(body))]
  {
    var k := Classify(l, c);
    var ks := Classified(rest, c);
    var sp := Speaking(k.role, k.name, k.seed);
    ClassifiedConcat([], l, rest, c);
    assert [] + [l] + rest == [l] + rest;
    assert Classified([l] + rest, c) == [k] + ks;
    assert Close(Preamble([])) == [];
    assert Step(Start, k, c.notice) == Scanner([], sp);
    assert ([k] + ks)[0] == k && ([k] + ks)[1..] == ks;
    assert Run(Start, [k] + ks, c.notice) == Run(Scanner([], sp), ks, c.notice);
    ContinuationsExtend(Scanner([], sp), ks, c.notice);
    ExtendAllKeepsKind(sp, ks);
  }

  /** A line `Name: text` for a recognised name is that speaker's line with
      seed `text`. */
  lemma LabelledLine(line: string, c: Context, r: Role, n: string, text: string)
    requires line == n + ": " + text
    requires n != [] && !IsSpace(n[0]) && TrimmedText(text)
    requires NamedFor(r, n, c)
    requires r != System ==> !HasLabel(line, SystemName)
    requires r == Character ==> !HasLabel(line, c.sender)
    ensures Classify(line, c) == Speaker(r, n, text)
  {
    assert line[0] == n[0] && line[|line| - 1] == text[|text| - 1];
    TrimmedIsFixed(line);
    ToLowerSpec(line);
    // the colon after the name survives lower-casing, and the marker has none
    assert ToLower(line) != MarkerToken by {
      assert ToLower(line)[|n|] == ':';
      assert forall i | 0 <= i < |MarkerToken| :: MarkerToken[i] != ':';
    }
    assert line[|n| + 1..] == " " + text;
    assert (" " + text)[1..] == text;
    assert TrimStart(" " + text) == text;
    assert HasLabel(line, n);
  }

  /** A line reading `<start>` in some letter casing is a marker. */
  lemma MarkerLine(line: string, c: Context)
    requires TrimmedText(line) && ToLower(line) == MarkerToken
    ensures Classify(line, c) == Marker
  {
    TrimmedIsFixed(line);
    ToLowerSpec(line);
  }

  /** A line that is neither a marker nor labelled continues the open buffer. */
  lemma UnlabelledLine(line: string, c: Context)
    requires line == [] || TrimmedText(line)
    requires ToLower(line) != MarkerToken
    requires !HasLabel(line, SystemName) && !HasLabel(line, c.sender) && !HasLabel(line, c.character)
    ensures Classify(line, c) == Continuation(line)
  {
    TrimmedIsFixed(line);
  }

  /** A lone speaker line with non-blank seed is one turn. */
  lemma SingleSpeakerTurn(l: string, c: Context)
    requires Classify(l, c).Speaker? && TrimmedText(Classify(l, c).seed)
    ensures Segment([l], c) == [Turn(Classify(l, c).role, Classify(l, c).name, Classify(l, c).seed)]
  {
    SpeakerTurn(l, [], c);
    assert [l] + [] == [l];
    TrimmedIsFixed(Classify(l, c).seed);
  }

  /** The turn a speaker line opens, with its seed as content. */
  function SeedTurn(l: string, c: Context): Turn {
    var k := Classify(l, c);
    if k.Speaker? then Turn(k.role, k.name, k.seed) else Notice(c)
  }

  predicate SpeakerWithText(l: string, c: Context) {
    Classify(l, c).Speaker? && TrimmedText(Classify(l, c).seed)
  }

  /** Speaker lines following one another never merge: a run of them yields
      exactly one turn per line, in order. */
  lemma {:induction false} OneTurnPerSpeakerLine(lines: seq<string>, c: Context)
    requires forall i :: 0 <= i < |lines| ==> SpeakerWithText(lines[i], c)
    ensures |Segment(lines, c)| == |lines|
    ensures forall i :: 0 <= i < |lines| ==> Segment(lines, c)[i] == SeedTurn(lines[i], c)
    decreases |lines|
  {
    if lines == [] {
      EmptySegment(c);
    } else {
      var n := |lines| - 1;
      var init := lines[..n];
      assert lines == init + [lines[n]] + [];
      SpeakerSplits(init, lines[n], [], c);
      assert [lines[n]] + [] == [lines[n]];
      SingleSpeakerTurn(lines[n], c);
      OneTurnPerSpeakerLine(init, c);
    }
  }

  /** An empty transcript has no turns. */
  lemma EmptySegment(c: Context)
    ensures Segment([], c) == []
  {
    assert Close(Preamble([])) == [];
  }

  // ---------------------------------------------------------------------------
  // Every emitted turn is well formed

  predicate TrimmedText(s: string) {
    s != [] && !IsSpace(s[0]) && !IsSpace(s[|s| - 1])
  }

  /** A turn has non-empty content without surrounding white space, and its
      label is the one that belongs to its role. */
  predicate WellFormed(t: Turn, c: Context) {
    TrimmedText(t.content) && NamedFor(t.role, t.name, c)
  }

  predicate ScannerOk(s: Scanner, c: Context) {
    && (forall i :: 0 <= i < |s.out| ==> WellFormed(s.out[i], c))
    && (s.open.Speaking? ==> NamedFor(s.open.role, s.open.name, c))
  }

  /** A classified line carries a label that belongs to its role. */
  predicate KindOk(k: LineKind, c: Context) {
    k.Speaker? ==> NamedFor(k.role, k.name, c)
  }

  lemma CloseWellFormed(o: Open, c: Context)
    requires o.Speaking? ==> NamedFor(o.role, o.name, c)
    ensures forall i :: 0 <= i < |Close(o)| ==> WellFormed(Close(o)[i], c)
  {
    TrimSpec(o.text);
  }

  lemma {:induction false} RunWellFormed(s: Scanner, ks: seq<LineKind>, c: Context)
    requires TrimmedText(c.notice)
    requires ScannerOk(s, c)
    requires forall i :: 0 <= i < |ks| ==> KindOk(ks[i], c)
    ensures ScannerOk(Run(s, ks, c.notice), c)
    decreases |ks|
  {
    if ks != [] {
      CloseWellFormed(s.open, c);
      RunWellFormed(Step(s, ks[0], c.notice), ks[1..], c);
    }
  }

  /** Whatever the transcript, every turn the segmenter emits is well formed:
      no blank turns, and speaker labels agree with roles. */
  lemma SegmentWellFormed(lines: seq<string>, c: Context)
    requires TrimmedText(c.notice)
    ensures forall t :: t in Segment(lines, c) ==> WellFormed(t, c)
  {
    var ks := Classified(lines, c);
    forall i | 0 <= i < |ks| ensures KindOk(ks[i], c) {
      ClassifySpec(lines[i], c);
    }
    RunWellFormed(Start, ks, c);
    CloseWellFormed(Run(Start, ks, c.notice).open, c);
  }
}
