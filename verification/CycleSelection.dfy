// Selecting the reward cycles to claim.
module CycleSelection {
  import opened Text
  import opened Numerals

  // ---- The prompt ----

  type Digits = s: string | s != "" && AllDigits(s) witness "0"

  datatype Answer = Blank | List(elements: seq<Digits>)

  /** The format ^$|^\d+(,\d+)*$ */
  predicate IsCycleList(line: string) {
    line == "" || forall p :: p in Split(line, ',') ==> p != "" && AllDigits(p)
  }

  function AnswerOf(line: string): Answer
    requires IsCycleList(line)
  {
    if line == "" then Blank
    else
      var parts := Split(line, ',');
      assert forall i :: 0 <= i < |parts| ==> parts[i] in parts;
      List(parts)
  }

  /** Joining digit strings with commas gives a line in that format, and it is read as those strings. */
  lemma CycleListsAreJoined(parts: seq<Digits>)
    requires parts != []
    ensures IsCycleList(Join(parts, ',')) && AnswerOf(Join(parts, ',')) == List(parts)
  {
    forall p | p in parts ensures ',' !in p {
      assert forall i :: 0 <= i < |p| ==> IsDigit(p[i]);
    }
    SplitJoin(parts, ',');
    assert Split("", ',') == [""];
    assert Join(parts, ',') != "";
  }

  /** Only comma-separated lists of digit strings have that format. */
  lemma CycleListsAreOnlyJoined(line: string)
    requires IsCycleList(line) && line != ""
    ensures AnswerOf(line).List? && AnswerOf(line).elements != [] && line == Join(AnswerOf(line).elements, ',')
  {
    JoinSplit(line, ',');
  }

  /** Prompt: the first line in the expected format; the end of the input reads as an empty line. */
  function Prompt(lines: seq<string>): (r: (Answer, seq<string>))
    ensures r.0.List? ==> |r.1| < |lines|
  {
    if lines == [] then (Blank, [])
    else if IsCycleList(lines[0]) then (AnswerOf(lines[0]), lines[1..])
    else Prompt(lines[1..])
  }

  /** The line at k is the first in the format, or there is none and k is the end of the input, which reads as blank. */
  predicate IsAnsweredAt(lines: seq<string>, k: nat, answer: Answer, rest: seq<string>)
    requires k <= |lines|
  {
    && (forall i :: 0 <= i < k ==> !IsCycleList(lines[i]))
    && (if k == |lines| then answer == Blank && rest == []
        else IsCycleList(lines[k]) && answer == AnswerOf(lines[k]) && rest == lines[k + 1..])
  }

  method ReadPrompt(lines: seq<string>) returns (answer: Answer, rest: seq<string>)
    ensures (answer, rest) == Prompt(lines)
    ensures exists k :: 0 <= k <= |lines| && IsAnsweredAt(lines, k, answer, rest)
  {
    rest := lines;
    ghost var k := 0;
    while rest != [] && !IsCycleList(rest[0])
      invariant k <= |lines| && rest == lines[k..]
      invariant forall i :: 0 <= i < k ==> !IsCycleList(lines[i])
      invariant Prompt(rest) == Prompt(lines)
      decreases |rest|
    {
      rest := rest[1..];
      k := k + 1;
    }
    if rest == [] {
      assert IsAnsweredAt(lines, k, Blank, []);
      return Blank, [];
    }
    assert IsAnsweredAt(lines, k, AnswerOf(rest[0]), rest[1..]);
    answer, rest := AnswerOf(rest[0]), rest[1..];
  }

  // ---- The answers ----

  /** The cycle that an element stands for, whether it parsed or not. */
  function CycleOf(element: Digits): int {
    ToInt64(Number(ParseUint(element)))
  }

  predicate IsValid(cycles: seq<int>, element: Digits) {
    ParseUint(element).Ok? && CycleOf(element) in cycles
  }

  predicate AllValid(cycles: seq<int>, elements: seq<Digits>) {
    forall e :: e in elements ==> IsValid(cycles, e)
  }

  predicate Accepts(cycles: seq<int>, answer: Answer) {
    answer.Blank? || AllValid(cycles, answer.elements)
  }

  /** The answers given, up to the accepted one. */
  function Answers(cycles: seq<int>, lines: seq<string>): (answers: seq<Answer>)
    ensures |answers| >= 1
    ensures forall i :: 0 <= i < |answers| ==> (Accepts(cycles, answers[i]) <==> i == |answers| - 1)
    decreases |lines|
  {
    var (answer, rest) := Prompt(lines);
    if Accepts(cycles, answer) then [answer] else [answer] + Answers(cycles, rest)
  }

  /** The answers that the lines in the format give, in order. */
  function Given(lines: seq<string>): seq<Answer> {
    if lines == [] then []
    else (if IsCycleList(lines[0]) then [AnswerOf(lines[0])] else []) + Given(lines[1..])
  }

  /**
   * The answers are those of the lines in the format, in order and none left out, up to the first
   * that is accepted; the end of the input counts as a blank line.
   */
  lemma {:induction false} AnswersAreGiven(cycles: seq<int>, lines: seq<string>)
    ensures Answers(cycles, lines) <= Given(lines) + [Blank]
    decreases |lines|
  {
    if lines != [] {
      var rest := lines[1..];
      AnswersAreGiven(cycles, rest);
      if IsCycleList(lines[0]) {
        var answer := AnswerOf(lines[0]);
        OneMoreGiven(answer, Answers(cycles, rest), Given(rest) + [Blank]);
        assert Given(lines) + [Blank] == [answer] + (Given(rest) + [Blank]);
      } else {
        assert Answers(cycles, lines) == Answers(cycles, rest);
        assert Given(lines) == Given(rest);
      }
    }
  }

  lemma OneMoreGiven(answer: Answer, answers: seq<Answer>, given: seq<Answer>)
    requires answers <= given
    ensures [answer] <= [answer] + given && [answer] + answers <= [answer] + given
  {
  }

  /** The cycles that an answer adds to those to claim. */
  function Added(cycles: seq<int>, answer: Answer): set<int> {
    match answer
    case Blank => set c | c in cycles
    case List(elements) => set e | e in elements && CycleOf(e) in cycles :: CycleOf(e)
  }

  /** The cycles to claim after these answers: rejected answers count like the accepted one. */
  function Claimed(cycles: seq<int>, answers: seq<Answer>): set<int> {
    if answers == [] then {}
    else Added(cycles, answers[0]) + Claimed(cycles, answers[1..])
  }

  /** One turn of the loop: an answer adds its cycles, and unless it is accepted the rest add theirs. */
  lemma ClaimedStep(cycles: seq<int>, lines: seq<string>)
    ensures var (answer, rest) := Prompt(lines);
      Claimed(cycles, Answers(cycles, lines))
        == Added(cycles, answer) + if Accepts(cycles, answer) then {} else Claimed(cycles, Answers(cycles, rest))
  {
    var (answer, rest) := Prompt(lines);
    if Accepts(cycles, answer) {
      assert [answer][1..] == [];
    } else {
      assert ([answer] + Answers(cycles, rest))[1..] == Answers(cycles, rest);
    }
  }

  lemma AddedSnoc(cycles: seq<int>, elements: seq<Digits>, e: Digits)
    ensures Added(cycles, List(elements + [e]))
         == Added(cycles, List(elements)) + if CycleOf(e) in cycles then {CycleOf(e)} else {}
    ensures AllValid(cycles, elements + [e]) <==> AllValid(cycles, elements) && IsValid(cycles, e)
  {
    assert forall x :: x in elements + [e] <==> x in elements || x == e;
  }

  // ---- The loops ----

  /** The innermost loop: looking for a cycle among the unclaimed ones. */
  method Find(cycles: seq<int>, cycle: int) returns (found: bool)
    ensures found <==> cycle in cycles
  {
    found := false;
    for j := 0 to |cycles|
      invariant !found && cycle !in cycles[..j]
    {
      if cycles[j] == cycle { return true; }
    }
  }

  /** The loop over the elements of one answer. */
  method CheckElements(cycles: seq<int>, elements: seq<Digits>, claimed: set<int>)
    returns (allValid: bool, after: set<int>)
    ensures allValid <==> AllValid(cycles, elements)
    ensures after == claimed + Added(cycles, List(elements))
  {
    allValid, after := true, claimed;
    for i := 0 to |elements|
      invariant allValid <==> AllValid(cycles, elements[..i])
      invariant after == claimed + Added(cycles, List(elements[..i]))
    {
      var element := elements[i];
      assert elements[..i + 1] == elements[..i] + [element];
      AddedSnoc(cycles, elements[..i], element);
      var parsed := ParseUint(element);
      if !parsed.Ok? { allValid := false; }
      var cycle := ToInt64(Number(parsed));
      var found := Find(cycles, cycle);
      if !found { allValid := false; } else { after := after + {cycle}; }
    }
    assert elements[..|elements|] == elements;
  }

  /** The selection loop of ClaimSpRewards on the lines of its input. */
  method SelectCycles(cycles: seq<int>, lines: seq<string>) returns (claimed: set<int>)
    ensures claimed == Claimed(cycles, Answers(cycles, lines))
  {
    claimed := {};
    var rest := lines;
    var accepted := false;
    while !accepted
      invariant claimed + (if accepted then {} else Claimed(cycles, Answers(cycles, rest)))
             == Claimed(cycles, Answers(cycles, lines))
      decreases !accepted, |rest|
    {
      ClaimedStep(cycles, rest);
      var answer;
      answer, rest := ReadPrompt(rest);
      match answer {
        case Blank =>
          claimed, accepted := claimed + set c | c in cycles, true;
        case List(elements) =>
          accepted, claimed := CheckElements(cycles, elements, claimed);
      }
    }
  }

  // ---- What is claimed ----

  /** An answer asks for a cycle if it is blank or one of its elements stands for the cycle. */
  predicate AsksFor(answer: Answer, c: int) {
    answer.Blank? || exists e :: e in answer.elements && CycleOf(e) == c
  }

  /** A cycle is claimed if and only if it is unclaimed so far and some answer, rejected or not, asks for it. */
  lemma {:induction false} ClaimedExactly(cycles: seq<int>, answers: seq<Answer>, c: int)
    ensures c in Claimed(cycles, answers) <==> c in cycles && exists a :: a in answers && AsksFor(a, c)
  {
    if answers != [] {
      var first, rest := answers[0], answers[1..];
      assert answers == [first] + rest;
      ClaimedExactly(cycles, rest, c);
      assert c in Added(cycles, first) <==> c in cycles && AsksFor(first, c);
    }
  }

  /**
   * What is claimed is part of the unclaimed cycles. It is all of them if the accepted answer is
   * blank, and else holds at least every cycle that the accepted answer asks for.
   */
  lemma AcceptedAnswerIsClaimed(cycles: seq<int>, lines: seq<string>, c: int)
    ensures var answers := Answers(cycles, lines);
      var accepted := answers[|answers| - 1];
      && (c in Claimed(cycles, answers) ==> c in cycles)
      && (accepted.Blank? ==> (c in cycles <==> c in Claimed(cycles, answers)))
      && (accepted.List? && AsksFor(accepted, c) ==> c in Claimed(cycles, answers))
  {
    var answers := Answers(cycles, lines);
    var accepted := answers[|answers| - 1];
    ClaimedExactly(cycles, answers, c);
    assert accepted in answers;
    if accepted.List? && AsksFor(accepted, c) {
      var e :| e in accepted.elements && CycleOf(e) == c;
      assert IsValid(cycles, e);
    }
  }

  lemma {:induction false} PromptSkips(lines: seq<string>)
    ensures var (answer, rest) := Prompt(lines);
      && (forall l :: l in rest ==> l in lines)
      && (answer.List? ==> exists l :: l in lines && IsCycleList(l) && AnswerOf(l) == answer)
  {
    if lines != [] && !IsCycleList(lines[0]) { PromptSkips(lines[1..]); }
  }

  /** Input that ends before any line is accepted claims every cycle, whatever its lines asked for. */
  lemma {:induction false} EndOfInputClaimsAll(cycles: seq<int>, lines: seq<string>)
    requires forall l :: l in lines && IsCycleList(l) ==> !Accepts(cycles, AnswerOf(l))
    ensures Claimed(cycles, Answers(cycles, lines)) == set c | c in cycles
    decreases |lines|
  {
    var (answer, rest) := Prompt(lines);
    PromptSkips(lines);
    ClaimedStep(cycles, lines);
    if answer.List? {
      EndOfInputClaimsAll(cycles, rest);
      assert Added(cycles, answer) <= set c | c in cycles;
    }
  }

  /**
   * An accepted element claims the cycle whose decimal number it shows, if and only if it has no
   * leading zero or denotes less than 8.
   */
  lemma AcceptedElement(cycles: seq<int>, element: Digits)
    requires forall c :: c in cycles ==> 0 <= c < TWO_TO_THE_63
    requires IsValid(cycles, element)
    ensures CycleOf(element) == ValueOf(element, 10) <==> element[0] != '0' || ValueOf(element, 10) < 8
  {
    var n := ParseUint(element).value;
    ConversionIsFaithful(n, CycleOf(element));
    ReadsDecimal(element);
    if element[0] != '0' {
      ScanMeaning(element, 10, 0);
      HornerIsValue(element, 10);
    }
  }

  /** An element beyond 64 bits stands for no cycle, but for -1. */
  lemma TooLargeIsMinusOne(cycles: seq<int>, element: Digits)
    requires ParseUint(element).RangeError?
    ensures !IsValid(cycles, element) && CycleOf(element) == -1
    ensures Added(cycles, List([element])) == if -1 in cycles then {-1} else {}
  {
    assert forall e :: e in [element] <==> e == element;
  }

  /** "010" claims cycle 8 rather than 10, and "08", rejected for its syntax, adds cycle 0. */
  lemma OctalSurprise()
    ensures Added([8, 10], List(["010"])) == {8} && AllValid([8, 10], ["010"])
    ensures Added([0, 8], List(["08"])) == {0} && !AllValid([0, 8], ["08"])
  {
    var ten: Digits, eight: Digits := "010", "08";
    assert ParseUint(ten) == Ok(8) by {
      assert ten[1..] == "10" && "10"[1..] == "0" && "0"[1..] == "";
    }
    assert ParseUint(eight) == SyntaxError by {
      assert eight[1..] == "8";
    }
    assert ten in [ten] && eight in [eight];
  }
}
