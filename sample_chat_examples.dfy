/** The example transcripts of the sample-dialogue tests, with the turns the
    segmenter produces for them. The speakers are the character "Vader" and
    the user "Sam"; the notice text is left open. Each transcript is given as
    the lines the test writes, one per element, with the text after each
    speaker label left open too: the tests' own texts are instances (every
    one is trimmed, and every unlabelled line is `Plain`). */
module SampleChatExamples {
  import opened Wrappers
  import opened Text
  import opened SampleChat
  import opened BudgetFit
  import opened Splitter

  function Cast(notice: string): Context {
    Context("Vader", "Sam", notice)
  }

  function Note(notice: string): Turn {
    Turn(System, SystemName, notice)
  }

  /** A trimmed line reading `<start>` in some letter casing. */
  predicate IsMarker(m: string) {
    TrimmedText(m) && ToLower(m) == MarkerToken
  }

  /** A line of free text: trimmed, not the marker, and not labelled with any
      of the three speaker names. */
  predicate Plain(p: string, c: Context) {
    TrimmedText(p) && ToLower(p) != MarkerToken
    && !HasLabel(p, SystemName) && !HasLabel(p, c.sender) && !HasLabel(p, c.character)
  }

  /** `<START>` is recognised in the casings the tests write. */
  lemma StartCasings(m: string)
    requires m == "<STaRT>" || m == "<START>" || m == "<start>"
    ensures IsMarker(m)
  {
    ToLowerSpec(m);
    assert ToLower(m) == [LowerChar(m[0]), LowerChar(m[1]), LowerChar(m[2]), LowerChar(m[3]),
                          LowerChar(m[4]), LowerChar(m[5]), LowerChar(m[6])];
  }

  lemma SamSays(x: string, notice: string)
    requires TrimmedText(x)
    ensures Classify("Sam: " + x, Cast(notice)) == Speaker(User, "Sam", x)
  {
    var line := "Sam: " + x;
    assert line[..|SystemName|][1] == 'a';
    LabelledLine(line, Cast(notice), User, "Sam", x);
  }

  lemma VaderSays(y: string, notice: string)
    requires TrimmedText(y)
    ensures Classify("Vader: " + y, Cast(notice)) == Speaker(Character, "Vader", y)
  {
    var line := "Vader: " + y;
    assert line[..|SystemName|][0] == 'V';
    assert line[..3][0] == 'V';
    LabelledLine(line, Cast(notice), Character, "Vader", y);
  }

  lemma SystemSays(t: string, notice: string)
    requires TrimmedText(t)
    ensures Classify("System: " + t, Cast(notice)) == Speaker(System, SystemName, t)
  {
    LabelledLine("System: " + t, Cast(notice), System, SystemName, t);
  }

  lemma MarkerIs(m: string, notice: string)
    requires IsMarker(m)
    ensures Classify(m, Cast(notice)) == Marker
  {
    MarkerLine(m, Cast(notice));
  }

  lemma PlainIs(p: string, notice: string)
    requires Plain(p, Cast(notice))
    ensures Classify(p, Cast(notice)) == Continuation(p)
  {
    UnlabelledLine(p, Cast(notice));
  }

  // tests/chat-model-sample-chat.spec.ts:10-16
  lemma StartThenSpeakers(m: string, x: string, y: string, notice: string)
    requires IsMarker(m) && TrimmedText(x) && TrimmedText(y)
    ensures Segment([m, "Sam: " + x, "Vader: " + y], Cast(notice))
         == [Note(notice), Turn(User, "Sam", x), Turn(Character, "Vader", y)]
  {
    var ls := [m, "Sam: " + x, "Vader: " + y];
    var ks := [Marker, Speaker(User, "Sam", x), Speaker(Character, "Vader", y)];
    forall i | 0 <= i < |ls| ensures Classify(ls[i], Cast(notice)) == ks[i] {
      if i == 0 { MarkerIs(m, notice); }
      else if i == 1 { SamSays(x, notice); }
      else { VaderSays(y, notice); }
    }
    ClassifiedIs(ls, ks, Cast(notice));
    OneTurnPerLine(ks, notice);
  }

  // tests/chat-model-sample-chat.spec.ts:18-23
  lemma SpeakersWithoutStart(x: string, y: string, notice: string)
    requires TrimmedText(x) && TrimmedText(y)
    ensures Segment(["Sam: " + x, "Vader: " + y], Cast(notice))
         == [Turn(User, "Sam", x), Turn(Character, "Vader", y)]
  {
    var ls := ["Sam: " + x, "Vader: " + y];
    var ks := [Speaker(User, "Sam", x), Speaker(Character, "Vader", y)];
    forall i | 0 <= i < |ls| ensures Classify(ls[i], Cast(notice)) == ks[i] {
      if i == 0 { SamSays(x, notice); }
      else { VaderSays(y, notice); }
    }
    ClassifiedIs(ls, ks, Cast(notice));
    OneTurnPerLine(ks, notice);
  }

  /** The 18-23 transcript written with any line ending: `\r\n`, a lone
      `\r` or `\n` all separate the two speaker lines. */
  lemma SpeakersAnyLineEnding(x: string, sep: string, y: string, notice: string)
    requires TrimmedText(x) && TrimmedText(y)
    requires '\r' !in x && '\n' !in x && '\r' !in y && '\n' !in y
    requires sep == "\r\n" || sep == "\r" || sep == "\n"
    ensures SegmentText("Sam: " + x + sep + "Vader: " + y, Cast(notice))
         == [Turn(User, "Sam", x), Turn(Character, "Vader", y)]
  {
    var a, b := "Sam: " + x, "Vader: " + y;
    assert '\r' !in a && '\n' !in a && '\r' !in b && '\n' !in b;
    assert "Sam: " + x + sep + "Vader: " + y == a + sep + b;
    SplitAtLineEnding(a, sep, b);
    NormalizeIdentity(b);
    SplitOneLine(b);
    assert [a] + [b] == ["Sam: " + x, "Vader: " + y];
    SpeakersWithoutStart(x, y, notice);
  }

  // tests/chat-model-sample-chat.spec.ts:25-31
  lemma PreambleBeforeSpeakers(p: string, x: string, y: string, notice: string)
    requires Plain(p, Cast(notice)) && TrimmedText(x) && TrimmedText(y)
    ensures Segment([p, "Sam: " + x, "Vader: " + y], Cast(notice))
         == [Turn(System, SystemName, p), Turn(User, "Sam", x), Turn(Character, "Vader", y)]
  {
    var ls := [p, "Sam: " + x, "Vader: " + y];
    var ks := [Continuation(p), Speaker(User, "Sam", x), Speaker(Character, "Vader", y)];
    forall i | 0 <= i < |ls| ensures Classify(ls[i], Cast(notice)) == ks[i] {
      if i == 0 { PlainIs(p, notice); }
      else if i == 1 { SamSays(x, notice); }
      else { VaderSays(y, notice); }
    }
    ClassifiedIs(ls, ks, Cast(notice));
    OneTurnPerLine(ks, notice);
  }

  // tests/chat-model-sample-chat.spec.ts:32-37
  lemma PreambleBeforeStart(p: string, m: string, x: string, y: string, notice: string)
    requires Plain(p, Cast(notice)) && IsMarker(m) && TrimmedText(x) && TrimmedText(y)
    ensures Segment([p, m, "Sam: " + x, "Vader: " + y], Cast(notice))
         == [Turn(System, SystemName, p), Note(notice), Turn(User, "Sam", x), Turn(Character, "Vader", y)]
  {
    var ls := [p, m, "Sam: " + x, "Vader: " + y];
    var ks := [Continuation(p), Marker, Speaker(User, "Sam", x), Speaker(Character, "Vader", y)];
    forall i | 0 <= i < |ls| ensures Classify(ls[i], Cast(notice)) == ks[i] {
      if i == 0 { PlainIs(p, notice); }
      else if i == 1 { MarkerIs(m, notice); }
      else if i == 2 { SamSays(x, notice); }
      else { VaderSays(y, notice); }
    }
    ClassifiedIs(ls, ks, Cast(notice));
    OneTurnPerLine(ks, notice);
  }

  /** The classified lines of the 40-50 test transcript. */
  lemma EveryStartKinds(p: string, x1: string, y1: string, y2: string, x2: string, notice: string)
    requires TrimmedText(p) && TrimmedText(x1) && TrimmedText(y1) && TrimmedText(y2) && TrimmedText(x2)
    ensures SegmentKinds([Continuation(p), Marker, Speaker(User, "Sam", x1), Speaker(Character, "Vader", y1),
                          Marker, Speaker(Character, "Vader", y2), Speaker(User, "Sam", x2)], notice)
         == [Turn(System, SystemName, p), Note(notice), Turn(User, "Sam", x1), Turn(Character, "Vader", y1),
             Note(notice), Turn(Character, "Vader", y2), Turn(User, "Sam", x2)]
  {
    var ks := [Continuation(p), Marker, Speaker(User, "Sam", x1), Speaker(Character, "Vader", y1),
               Marker, Speaker(Character, "Vader", y2), Speaker(User, "Sam", x2)];
    OneTurnPerLine(ks, notice);
  }

  // tests/chat-model-sample-chat.spec.ts:40-50
  lemma EveryStartIsANotice(p: string, m1: string, x1: string, y1: string,
                            m2: string, y2: string, x2: string, notice: string)
    requires Plain(p, Cast(notice)) && IsMarker(m1) && IsMarker(m2)
    requires TrimmedText(x1) && TrimmedText(y1) && TrimmedText(y2) && TrimmedText(x2)
    ensures Segment([p, m1, "Sam: " + x1, "Vader: " + y1, m2, "Vader: " + y2, "Sam: " + x2], Cast(notice))
         == [Turn(System, SystemName, p), Note(notice), Turn(User, "Sam", x1), Turn(Character, "Vader", y1),
             Note(notice), Turn(Character, "Vader", y2), Turn(User, "Sam", x2)]
  {
    var ls := [p, m1, "Sam: " + x1, "Vader: " + y1, m2, "Vader: " + y2, "Sam: " + x2];
    var ks := [Continuation(p), Marker, Speaker(User, "Sam", x1), Speaker(Character, "Vader", y1),
               Marker, Speaker(Character, "Vader", y2), Speaker(User, "Sam", x2)];
    forall i | 0 <= i < |ls| ensures Classify(ls[i], Cast(notice)) == ks[i] {
      if i == 0 { PlainIs(p, notice); }
      else if i == 1 { MarkerIs(m1, notice); }
      else if i == 2 { SamSays(x1, notice); }
      else if i == 3 { VaderSays(y1, notice); }
      else if i == 4 { MarkerIs(m2, notice); }
      else if i == 5 { VaderSays(y2, notice); }
      else { SamSays(x2, notice); }
    }
    ClassifiedIs(ls, ks, Cast(notice));
    EveryStartKinds(p, x1, y1, y2, x2, notice);
  }

  /** The classified lines of the 52-64 test transcript. */
  lemma TextAfterStartKinds(x1: string, y1: string, p: string, y2: string,
                            x2: string, y3: string, x3: string, q: string, notice: string)
    requires TrimmedText(p) && TrimmedText(q)
    requires TrimmedText(x1) && TrimmedText(y1) && TrimmedText(y2)
    requires TrimmedText(x2) && TrimmedText(y3) && TrimmedText(x3)
    ensures SegmentKinds([Speaker(User, "Sam", x1), Speaker(Character, "Vader", y1), Marker, Continuation(p),
                          Speaker(Character, "Vader", y2), Speaker(User, "Sam", x2),
                          Speaker(Character, "Vader", y3), Speaker(User, "Sam", x3), Continuation(q)], notice)
         == [Turn(User, "Sam", x1), Turn(Character, "Vader", y1), Note(notice),
             Turn(System, SystemName, p), Turn(Character, "Vader", y2), Turn(User, "Sam", x2),
             Turn(Character, "Vader", y3), Turn(User, "Sam", x3 + "\n" + q)]
  {
    var ks := [Speaker(User, "Sam", x1), Speaker(Character, "Vader", y1), Marker, Continuation(p),
               Speaker(Character, "Vader", y2), Speaker(User, "Sam", x2),
               Speaker(Character, "Vader", y3), Speaker(User, "Sam", x3), Continuation(q)];
    var head, last := ks[..7], ks[7..];
    assert ks == head + last;
    assert last == [Speaker(User, "Sam", x3), Continuation(q)];
    SplitsBeforeOpening(head, last, notice);
    OneTurnPerLine(head, notice);
    SpeakerThenText(User, "Sam", x3, q, notice);
  }

  // tests/chat-model-sample-chat.spec.ts:52-64
  lemma TextAfterStartIsSystem(x1: string, y1: string, m: string, p: string, y2: string,
                               x2: string, y3: string, x3: string, q: string, notice: string)
    requires IsMarker(m) && Plain(p, Cast(notice)) && Plain(q, Cast(notice))
    requires TrimmedText(x1) && TrimmedText(y1) && TrimmedText(y2)
    requires TrimmedText(x2) && TrimmedText(y3) && TrimmedText(x3)
    ensures Segment(["Sam: " + x1, "Vader: " + y1, m, p, "Vader: " + y2, "Sam: " + x2,
                     "Vader: " + y3, "Sam: " + x3, q], Cast(notice))
         == [Turn(User, "Sam", x1), Turn(Character, "Vader", y1), Note(notice),
             Turn(System, SystemName, p), Turn(Character, "Vader", y2), Turn(User, "Sam", x2),
             Turn(Character, "Vader", y3), Turn(User, "Sam", x3 + "\n" + q)]
  {
    var ls := ["Sam: " + x1, "Vader: " + y1, m, p, "Vader: " + y2, "Sam: " + x2,
               "Vader: " + y3, "Sam: " + x3, q];
    var ks := [Speaker(User, "Sam", x1), Speaker(Character, "Vader", y1), Marker, Continuation(p),
               Speaker(Character, "Vader", y2), Speaker(User, "Sam", x2),
               Speaker(Character, "Vader", y3), Speaker(User, "Sam", x3), Continuation(q)];
    forall i | 0 <= i < |ls| ensures Classify(ls[i], Cast(notice)) == ks[i] {
      if i == 0 { SamSays(x1, notice); }
      else if i == 1 { VaderSays(y1, notice); }
      else if i == 2 { MarkerIs(m, notice); }
      else if i == 3 { PlainIs(p, notice); }
      else if i == 4 { VaderSays(y2, notice); }
      else if i == 5 { SamSays(x2, notice); }
      else if i == 6 { VaderSays(y3, notice); }
      else if i == 7 { SamSays(x3, notice); }
      else { PlainIs(q, notice); }
    }
    ClassifiedIs(ls, ks, Cast(notice));
    TextAfterStartKinds(x1, y1, p, y2, x2, y3, x3, q, notice);
  }

  /** The classified lines of the 66-78 test transcript. */
  lemma LeadingBlankKinds(x1: string, y1: string, p: string, y2: string,
                          x2: string, y3: string, x3: string, notice: string)
    requires TrimmedText(p)
    requires TrimmedText(x1) && TrimmedText(y1) && TrimmedText(y2)
    requires TrimmedText(x2) && TrimmedText(y3) && TrimmedText(x3)
    ensures SegmentKinds([Continuation(""), Speaker(User, "Sam", x1), Speaker(Character, "Vader", y1), Marker,
                          Continuation(p), Speaker(Character, "Vader", y2), Speaker(User, "Sam", x2),
                          Speaker(Character, "Vader", y3), Speaker(User, "Sam", x3)], notice)
         == [Turn(User, "Sam", x1), Turn(Character, "Vader", y1), Note(notice),
             Turn(System, SystemName, p), Turn(Character, "Vader", y2), Turn(User, "Sam", x2),
             Turn(Character, "Vader", y3), Turn(User, "Sam", x3)]
  {
    var ks := [Continuation(""), Speaker(User, "Sam", x1), Speaker(Character, "Vader", y1), Marker,
               Continuation(p), Speaker(Character, "Vader", y2), Speaker(User, "Sam", x2),
               Speaker(Character, "Vader", y3), Speaker(User, "Sam", x3)];
    var rest := [Speaker(User, "Sam", x1), Speaker(Character, "Vader", y1), Marker,
                 Continuation(p), Speaker(Character, "Vader", y2), Speaker(User, "Sam", x2),
                 Speaker(Character, "Vader", y3), Speaker(User, "Sam", x3)];
    assert ks == [Continuation([])] + rest;
    BlankBefore(rest, notice);
    OneTurnPerLine(rest, notice);
  }

  // tests/chat-model-sample-chat.spec.ts:66-78 (the segmentation; the budget is in BudgetFit)
  lemma LeadingBlankLine(x1: string, y1: string, m: string, p: string, y2: string,
                         x2: string, y3: string, x3: string, notice: string)
    requires IsMarker(m) && Plain(p, Cast(notice))
    requires TrimmedText(x1) && TrimmedText(y1) && TrimmedText(y2)
    requires TrimmedText(x2) && TrimmedText(y3) && TrimmedText(x3)
    ensures Segment(["", "Sam: " + x1, "Vader: " + y1, m, p, "Vader: " + y2, "Sam: " + x2,
                     "Vader: " + y3, "Sam: " + x3], Cast(notice))
         == [Turn(User, "Sam", x1), Turn(Character, "Vader", y1), Note(notice),
             Turn(System, SystemName, p), Turn(Character, "Vader", y2), Turn(User, "Sam", x2),
             Turn(Character, "Vader", y3), Turn(User, "Sam", x3)]
  {
    var ls := ["", "Sam: " + x1, "Vader: " + y1, m, p, "Vader: " + y2, "Sam: " + x2,
               "Vader: " + y3, "Sam: " + x3];
    var ks := [Continuation(""), Speaker(User, "Sam", x1), Speaker(Character, "Vader", y1), Marker,
               Continuation(p), Speaker(Character, "Vader", y2), Speaker(User, "Sam", x2),
               Speaker(Character, "Vader", y3), Speaker(User, "Sam", x3)];
    forall i | 0 <= i < |ls| ensures Classify(ls[i], Cast(notice)) == ks[i] {
      if i == 0 { UnlabelledLine("", Cast(notice)); }
      else if i == 1 { SamSays(x1, notice); }
      else if i == 2 { VaderSays(y1, notice); }
      else if i == 3 { MarkerIs(m, notice); }
      else if i == 4 { PlainIs(p, notice); }
      else if i == 5 { VaderSays(y2, notice); }
      else if i == 6 { SamSays(x2, notice); }
      else if i == 7 { VaderSays(y3, notice); }
      else { SamSays(x3, notice); }
    }
    ClassifiedIs(ls, ks, Cast(notice));
    LeadingBlankKinds(x1, y1, p, y2, x2, y3, x3, notice);
  }

  /** The 66-78 test transcript, one line per element. */
  function BudgetLines(x1: string, y1: string, m: string, p: string, y2: string,
                       x2: string, y3: string, x3: string): seq<string> {
    ["", "Sam: " + x1, "Vader: " + y1, m, p, "Vader: " + y2, "Sam: " + x2, "Vader: " + y3, "Sam: " + x3]
  }

  // tests/chat-model-sample-chat.spec.ts:66-78, with the budget of 25 at line 76
  /** The long turn costs more than the whole budget, so it and everything
      before it is left out; the last turn fits and is kept whole. */
  lemma TrimmedIntoBudget(x1: string, y1: string, m: string, p: string, y2: string,
                          x2: string, y3: string, x3: string, notice: string, cost: Turn -> nat)
    requires IsMarker(m) && Plain(p, Cast(notice))
    requires TrimmedText(x1) && TrimmedText(y1) && TrimmedText(y2)
    requires TrimmedText(x2) && TrimmedText(y3) && TrimmedText(x3)
    requires forall i :: 0 <= i < 9 ==> '\n' !in BudgetLines(x1, y1, m, p, y2, x2, y3, x3)[i] && '\r' !in BudgetLines(x1, y1, m, p, y2, x2, y3, x3)[i]
    requires cost(Turn(User, "Sam", x3)) <= 25 < cost(Turn(Character, "Vader", y3))
    ensures SplitSampleChat(JoinLines(BudgetLines(x1, y1, m, p, y2, x2, y3, x3)), "Vader", "Sam",
                            Some(25), notice, cost)
         == Ok(FitResult([Turn(User, "Sam", x3)], 7))
  {
    var ls := BudgetLines(x1, y1, m, p, y2, x2, y3, x3);
    SegmentJoined(ls, Cast(notice));
    LeadingBlankLine(x1, y1, m, p, y2, x2, y3, x3, notice);
    var ts := Segment(ls, Cast(notice));
    assert ts[6] == Turn(Character, "Vader", y3);
    OverBudgetTurnDropped(ts, 25, cost, 6);
    assert ts[7..] == [Turn(User, "Sam", x3)];
    assert TotalCost(ts[7..], cost) == cost(Turn(User, "Sam", x3));
    FitExactly(ts, 25, cost, 7);
  }

  /** The classified lines of the 80-89 test transcript. */
  lemma ExplicitSystemKinds(x1: string, y1: string, y2: string, x2: string, t: string, notice: string)
    requires TrimmedText(x1) && TrimmedText(y1) && TrimmedText(y2) && TrimmedText(x2) && TrimmedText(t)
    ensures SegmentKinds([Speaker(User, "Sam", x1), Speaker(Character, "Vader", y1), Marker,
                          Speaker(Character, "Vader", y2), Speaker(User, "Sam", x2),
                          Speaker(System, SystemName, t)], notice)
         == [Turn(User, "Sam", x1), Turn(Character, "Vader", y1), Note(notice),
             Turn(Character, "Vader", y2), Turn(User, "Sam", x2), Turn(System, SystemName, t)]
  {
    var ks := [Speaker(User, "Sam", x1), Speaker(Character, "Vader", y1), Marker,
               Speaker(Character, "Vader", y2), Speaker(User, "Sam", x2), Speaker(System, SystemName, t)];
    OneTurnPerLine(ks, notice);
  }

  // tests/chat-model-sample-chat.spec.ts:80-89
  lemma ExplicitSystemLine(x1: string, y1: string, m: string, y2: string, x2: string, t: string, notice: string)
    requires IsMarker(m) && TrimmedText(t)
    requires TrimmedText(x1) && TrimmedText(y1) && TrimmedText(y2) && TrimmedText(x2)
    ensures Segment(["Sam: " + x1, "Vader: " + y1, m, "Vader: " + y2, "Sam: " + x2, "System: " + t], Cast(notice))
         == [Turn(User, "Sam", x1), Turn(Character, "Vader", y1), Note(notice),
             Turn(Character, "Vader", y2), Turn(User, "Sam", x2), Turn(System, SystemName, t)]
  {
    var ls := ["Sam: " + x1, "Vader: " + y1, m, "Vader: " + y2, "Sam: " + x2, "System: " + t];
    var ks := [Speaker(User, "Sam", x1), Speaker(Character, "Vader", y1), Marker,
               Speaker(Character, "Vader", y2), Speaker(User, "Sam", x2), Speaker(System, SystemName, t)];
    forall i | 0 <= i < |ls| ensures Classify(ls[i], Cast(notice)) == ks[i] {
      if i == 0 { SamSays(x1, notice); }
      else if i == 1 { VaderSays(y1, notice); }
      else if i == 2 { MarkerIs(m, notice); }
      else if i == 3 { VaderSays(y2, notice); }
      else if i == 4 { SamSays(x2, notice); }
      else { SystemSays(t, notice); }
    }
    ClassifiedIs(ls, ks, Cast(notice));
    ExplicitSystemKinds(x1, y1, y2, x2, t, notice);
  }
}
