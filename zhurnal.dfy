/**
  * The gradebook of zhurnal.go without its terminal plumbing: student
  * records, the average of a student's grades, the grade-collection loop of
  * the add command, the store keyed by full name, the filter by average and
  * the command dispatch.
  *
  * Input arrives as lines that are already trimmed and split into
  * whitespace-separated tokens; an empty line is the empty token sequence.
  * Averages are exact reals, not float64.
  */
module Zhurnal {

  import opened Strconv

  /** A student record: full name, grades in the order they were entered, average. */
  datatype Student = Student(fio: string, grades: seq<int>, avg: real)

  predicate IsGrade(g: int) {
    1 <= g <= 5
  }

  predicate AllGrades(gs: seq<int>) {
    forall i :: 0 <= i < |gs| ==> IsGrade(gs[i])
  }

  // ---------------------------------------------------------------------------
  // Average of the grades (calculateAverage)
  // ---------------------------------------------------------------------------

  function Sum(gs: seq<int>): int {
    if gs == [] then 0 else Sum(gs[..|gs| - 1]) + gs[|gs| - 1]
  }

  /** The arithmetic mean, and 0 for no grades. */
  function Mean(gs: seq<int>): real {
    if |gs| == 0 then 0.0 else Sum(gs) as real / |gs| as real
  }

  lemma {:induction false} SumBounds(gs: seq<int>)
    requires AllGrades(gs)
    ensures |gs| <= Sum(gs) <= 5 * |gs|
  {
    if gs != [] {
      SumBounds(gs[..|gs| - 1]);
    }
  }

  /** The average of one or more valid grades is itself between 1 and 5. */
  lemma MeanInRange(gs: seq<int>)
    requires gs != [] && AllGrades(gs)
    ensures 1.0 <= Mean(gs) <= 5.0
  {
    SumBounds(gs);
    var n := |gs| as real;
    var s := Sum(gs) as real;
    assert (5 * |gs|) as real == 5.0 * n;
    QuotientBounds(s, n, 1.0, 5.0);
  }

  lemma QuotientBounds(s: real, n: real, lo: real, hi: real)
    requires n > 0.0 && lo * n <= s <= hi * n
    ensures lo <= s / n <= hi
  {
    assert s / n * n == s;
  }

  /**
    * Sets the average of s from its grades, leaving name and grades as they
    * are: 0 for no grades, otherwise the sum divided by the count.
    */
  method CalculateAverage(s: Student) returns (r: Student)
    ensures r.fio == s.fio && r.grades == s.grades
    ensures r.avg == Mean(s.grades)
    ensures s.grades == [] ==> r.avg == 0.0
    ensures s.grades != [] ==> r.avg * |s.grades| as real == Sum(s.grades) as real
  {
    r := s;
    if |s.grades| == 0 {
      r := r.(avg := 0.0);
      return;
    }
    var sum := 0;
    for i := 0 to |s.grades|
      invariant sum == Sum(s.grades[..i])
    {
      assert s.grades[..i + 1][..i] == s.grades[..i];
      sum := sum + s.grades[i];
    }
    assert s.grades[..|s.grades|] == s.grades;
    r := r.(avg := sum as real / |s.grades| as real);
  }

  // ---------------------------------------------------------------------------
  // Grade tokens
  // ---------------------------------------------------------------------------

  /** What the collection loop does with one token: keep it, or report it and skip it. */
  datatype Verdict = Accepted(grade: int) | NotANumber | OutOfRange(value: int)

  function Judge(token: string): (v: Verdict)
    ensures v == NotANumber <==> Atoi(token) == None
    ensures v.Accepted? ==> Atoi(token) == Some(v.grade) && IsGrade(v.grade)
    ensures v.OutOfRange? ==> Atoi(token) == Some(v.value) && !IsGrade(v.value)
  {
    match Atoi(token)
    case None => NotANumber
    case Some(n) => if n < 1 || n > 5 then OutOfRange(n) else Accepted(n)
  }

  /** The grade a token contributes: itself when accepted, nothing otherwise. */
  function GradeOf(token: string): seq<int> {
    match Judge(token)
    case Accepted(g) => [g]
    case _ => []
  }

  /** f applied to every element of xs, the results concatenated in order. */
  function FlatMap<T, U>(f: T -> seq<U>, xs: seq<T>): seq<U> {
    if xs == [] then [] else FlatMap(f, xs[..|xs| - 1]) + f(xs[|xs| - 1])
  }

  lemma FlatMapSnoc<T, U>(f: T -> seq<U>, xs: seq<T>, x: T)
    ensures FlatMap(f, xs + [x]) == FlatMap(f, xs) + f(x)
  {
    assert (xs + [x])[..|xs|] == xs;
  }

  lemma {:induction false} FlatMapAppend<T, U>(f: T -> seq<U>, a: seq<T>, b: seq<T>)
    ensures FlatMap(f, a + b) == FlatMap(f, a) + FlatMap(f, b)
    decreases |b|
  {
    if b == [] {
      assert a + b == a;
    } else {
      var init, last := b[..|b| - 1], b[|b| - 1];
      FlatMapAppend(f, a, init);
      assert b == init + [last];
      assert a + b == (a + init) + [last];
      FlatMapSnoc(f, a + init, last);
      FlatMapSnoc(f, init, last);
      var fa, fi, fl := FlatMap(f, a), FlatMap(f, init), f(last);
      assert (fa + fi) + fl == fa + (fi + fl);
    }
  }

  /** The grades a run of tokens contributes, in token order. */
  function KeptGrades(tokens: seq<string>): seq<int> {
    FlatMap(GradeOf, tokens)
  }

  /** All tokens of a run of lines, in reading order. */
  function Flatten(lines: seq<seq<string>>): seq<string> {
    FlatMap((line: seq<string>) => line, lines)
  }

  /** The grades a run of lines contributes, line after line. */
  function KeptAll(lines: seq<seq<string>>): seq<int> {
    FlatMap(KeptGrades, lines)
  }

  /** Every kept grade lies in [1, 5], and no token yields more than one grade. */
  lemma {:induction false} KeptGradesValid(tokens: seq<string>)
    ensures AllGrades(KeptGrades(tokens))
    ensures |KeptGrades(tokens)| <= |tokens|
  {
    if tokens != [] {
      KeptGradesValid(tokens[..|tokens| - 1]);
    }
  }

  /** A grade is kept exactly when some token parses to it and it lies in [1, 5]. */
  lemma {:induction false} KeptGradesMembership(tokens: seq<string>, g: int)
    ensures g in KeptGrades(tokens) <==>
              exists j :: 0 <= j < |tokens| && Atoi(tokens[j]) == Some(g) && IsGrade(g)
  {
    if tokens != [] {
      var init, last := tokens[..|tokens| - 1], tokens[|tokens| - 1];
      KeptGradesMembership(init, g);
      if j :| 0 <= j < |init| && Atoi(init[j]) == Some(g) && IsGrade(g) {
        assert tokens[j] == init[j];
      }
      if j :| 0 <= j < |tokens| && Atoi(tokens[j]) == Some(g) && IsGrade(g) {
        if j < |init| {
          assert init[j] == tokens[j];
        }
      }
    }
  }

  /** Tokens are judged one after another: the grades of a + b are those of a, then those of b. */
  lemma KeptGradesAppend(a: seq<string>, b: seq<string>)
    ensures KeptGrades(a + b) == KeptGrades(a) + KeptGrades(b)
  {
    FlatMapAppend(GradeOf, a, b);
  }

  /** Grades accepted over several lines are the in-range, parseable tokens of all of them, in order. */
  lemma {:induction false} KeptAllFlatten(lines: seq<seq<string>>)
    ensures KeptAll(lines) == KeptGrades(Flatten(lines))
  {
    if lines != [] {
      var init := lines[..|lines| - 1];
      KeptAllFlatten(init);
      KeptGradesAppend(Flatten(init), lines[|lines| - 1]);
    }
  }

  lemma KeptAllValid(lines: seq<seq<string>>)
    ensures AllGrades(KeptAll(lines))
  {
    KeptAllFlatten(lines);
    KeptGradesValid(Flatten(lines));
  }

  lemma KeptAllStep(lines: seq<seq<string>>, i: nat)
    requires i < |lines|
    ensures KeptAll(lines[..i + 1]) == KeptAll(lines[..i]) + KeptGrades(lines[i])
  {
    assert lines[..i + 1][..i] == lines[..i];
  }

  /** What the first k lines contribute is a prefix of what all lines contribute. */
  lemma {:induction false} KeptAllPrefix(lines: seq<seq<string>>, k: nat)
    requires k <= |lines|
    ensures KeptAll(lines[..k]) <= KeptAll(lines)
    decreases |lines|
  {
    if k == |lines| {
      assert lines[..k] == lines;
    } else {
      var init := lines[..|lines| - 1];
      KeptAllPrefix(init, k);
      assert init[..k] == lines[..k];
    }
  }

  // ---------------------------------------------------------------------------
  // Grade collection (the sub-loop of addStudent)
  // ---------------------------------------------------------------------------

  /**
    * How the collection loop ends: with the grades and the number of lines it
    * read, or with the input running out before any grade was accepted. Once
    * the input is exhausted every read yields an empty line, so in the second
    * case the loop would re-prompt for ever.
    */
  datatype Collection = Finalized(grades: seq<int>, linesRead: nat) | EndOfInput

  /** The collection loop from line i on, with grades acc accepted so far. */
  function CollectFrom(lines: seq<seq<string>>, i: nat, acc: seq<int>): Collection
    requires i <= |lines|
    decreases |lines| - i
  {
    if i == |lines| then
      if acc == [] then EndOfInput else Finalized(acc, i)
    else if lines[i] == [] then
      if acc == [] then CollectFrom(lines, i + 1, acc) else Finalized(acc, i + 1)
    else
      CollectFrom(lines, i + 1, acc + KeptGrades(lines[i]))
  }

  function Collect(lines: seq<seq<string>>): Collection {
    CollectFrom(lines, 0, [])
  }

  /** Line j is an empty line read after at least one grade was accepted. */
  predicate EndsAt(lines: seq<seq<string>>, j: nat)
    requires j < |lines|
  {
    lines[j] == [] && KeptAll(lines[..j]) != []
  }

  /**
    * c ends the collection correctly: its grades are those of the lines it
    * read, there is at least one, it stopped at an empty line or at the end
    * of the input, and at no earlier empty line that followed a grade.
    */
  ghost predicate EndsCorrectly(lines: seq<seq<string>>, c: Collection)
    requires c.Finalized?
  {
    && c.linesRead <= |lines|
    && c.grades == KeptAll(lines[..c.linesRead])
    && c.grades != []
    && (c.linesRead == |lines| || EndsAt(lines, c.linesRead - 1))
    && forall j :: 0 <= j < c.linesRead - 1 ==> !EndsAt(lines, j)
  }

  lemma {:induction false} CollectFromMeaning(lines: seq<seq<string>>, i: nat, acc: seq<int>)
    requires i <= |lines|
    requires acc == KeptAll(lines[..i])
    requires forall j :: 0 <= j < i ==> !EndsAt(lines, j)
    ensures CollectFrom(lines, i, acc).EndOfInput? <==> KeptAll(lines) == []
    ensures CollectFrom(lines, i, acc).Finalized? ==>
              i <= CollectFrom(lines, i, acc).linesRead && EndsCorrectly(lines, CollectFrom(lines, i, acc))
    decreases |lines| - i
  {
    if i == |lines| {
      assert lines[..i] == lines;
    } else if lines[i] == [] && acc != [] {
      KeptAllStep(lines, i);
      KeptAllPrefix(lines, i + 1);
      assert EndsAt(lines, i);
    } else {
      KeptAllStep(lines, i);
      assert !EndsAt(lines, i);
      CollectFromMeaning(lines, i + 1, acc + KeptGrades(lines[i]));
    }
  }

  /**
    * The collection loop ends at the first empty line read after a grade was
    * accepted (or at the end of the input, which reads as an empty line), and
    * its grades are exactly the valid grades of the lines read, in order. It
    * never ends without a grade.
    */
  lemma CollectMeaning(lines: seq<seq<string>>)
    ensures Collect(lines).EndOfInput? <==> KeptAll(lines) == []
    ensures Collect(lines).Finalized? ==>
              var c := Collect(lines);
              && 0 < c.linesRead <= |lines|
              && c.grades == KeptAll(lines[..c.linesRead])
              && c.grades != []
              && AllGrades(c.grades)
              && (c.linesRead == |lines| || EndsAt(lines, c.linesRead - 1))
              && forall j :: 0 <= j < c.linesRead - 1 ==> !EndsAt(lines, j)
  {
    CollectFromMeaning(lines, 0, []);
    var c := Collect(lines);
    if c.Finalized? {
      KeptAllValid(lines[..c.linesRead]);
    }
  }

  /**
    * The token loop over one non-empty grade line: each token that parses as
    * an integer in [1, 5] is appended to grades; any other token is skipped
    * and the next one is judged.
    */
  method AppendGrades(grades: seq<int>, tokens: seq<string>) returns (extended: seq<int>)
    ensures extended == grades + KeptGrades(tokens)
  {
    extended := grades;
    for t := 0 to |tokens|
      invariant extended == grades + KeptGrades(tokens[..t])
    {
      assert tokens[..t + 1] == tokens[..t] + [tokens[t]];
      FlatMapSnoc(GradeOf, tokens[..t], tokens[t]);
      var parsed := Atoi(tokens[t]);
      if parsed.None? {
        continue;
      }
      var grade := parsed.value;
      if grade < 1 || grade > 5 {
        continue;
      }
      extended := extended + [grade];
    }
    assert tokens[..|tokens|] == tokens;
  }

  /**
    * Reads grade lines until an empty line follows at least one accepted
    * grade. Each token of a non-empty line is parsed; it is kept when it is an
    * integer in [1, 5] and skipped otherwise, and the next token is judged.
    */
  method CollectGrades(lines: seq<seq<string>>) returns (c: Collection)
    ensures c == Collect(lines)
  {
    var grades: seq<int> := [];
    var i := 0;
    while i < |lines|
      invariant i <= |lines|
      invariant CollectFrom(lines, i, grades) == Collect(lines)
    {
      var tokens := lines[i];
      i := i + 1;
      if tokens == [] {
        if grades == [] {
          // no grade yet: warn and prompt again
          continue;
        }
        return Finalized(grades, i);
      }
      grades := AppendGrades(grades, tokens);
    }
    // the input is exhausted: every further read yields an empty line
    if grades == [] {
      return EndOfInput;
    }
    return Finalized(grades, |lines|);
  }

  // ---------------------------------------------------------------------------
  // The record store
  // ---------------------------------------------------------------------------

  /** A stored record: kept under its own name, with valid grades and their average. */
  ghost predicate Recorded(name: string, s: Student) {
    && s.fio == name
    && s.grades != []
    && AllGrades(s.grades)
    && s.avg == Mean(s.grades)
  }

  ghost predicate WellFormedStore(students: map<string, Student>) {
    forall name :: name in students ==> Recorded(name, students[name])
  }

  datatype AddOutcome =
    | Added(linesRead: nat)      // the student was stored after reading linesRead grade lines
    | DuplicateName              // the name is already a key; no grade line was read
    | NoGradesBeforeEndOfInput   // the input ran out before a grade was accepted

  /** The map of students that addStudent updates in place. */
  class Journal {
    var students: map<string, Student>

    ghost predicate Valid()
      reads this
    {
      WellFormedStore(students)
    }

    constructor ()
      ensures Valid() && students == map[]
    {
      students := map[];
    }

    /**
      * The add command, after the name line has been read and trimmed into
      * fio: rejects a name already present, otherwise collects grades from
      * gradeLines and stores the new student with its average.
      */
    method AddStudent(fio: string, gradeLines: seq<seq<string>>) returns (outcome: AddOutcome)
      modifies this
      ensures old(Valid()) ==> Valid()
      ensures fio in old(students) ==> outcome == DuplicateName && students == old(students)
      ensures fio !in old(students) && Collect(gradeLines).EndOfInput? ==>
                outcome == NoGradesBeforeEndOfInput && students == old(students)
      ensures fio !in old(students) && Collect(gradeLines).Finalized? ==>
                var g := Collect(gradeLines).grades;
                && outcome == Added(Collect(gradeLines).linesRead)
                && students == old(students)[fio := Student(fio, g, Mean(g))]
                && students.Keys == old(students).Keys + {fio}
                && |students| == |old(students)| + 1
                && (forall name :: name in old(students) ==> students[name] == old(students)[name])
    {
      if fio in students {
        return DuplicateName;
      }
      var collected := CollectGrades(gradeLines);
      if collected.EndOfInput? {
        return NoGradesBeforeEndOfInput;
      }
      CollectMeaning(gradeLines);
      var student := Student(fio, collected.grades, 0.0);
      student := CalculateAverage(student);
      students := students[fio := student];
      outcome := Added(collected.linesRead);
    }
  }

  // ---------------------------------------------------------------------------
  // Filter by average (filterStudentsByAvg)
  // ---------------------------------------------------------------------------

  /** Names of the stored students whose average is strictly below threshold. */
  function BelowKeys(students: map<string, Student>, threshold: real): set<string> {
    set name | name in students && students[name].avg < threshold
  }

  ghost predicate Distinct(names: seq<string>) {
    forall i, j :: 0 <= i < j < |names| ==> names[i] != names[j]
  }

  /**
    * The students whose average is strictly below threshold, each once, in
    * the unspecified order in which the map is visited; visited records the
    * names in that order.
    */
  method FilterStudentsByAvg(students: map<string, Student>, threshold: real)
    returns (filtered: seq<Student>, ghost visited: seq<string>)
    ensures |filtered| == |visited| <= |students|
    ensures Distinct(visited)
    ensures forall i :: 0 <= i < |visited| ==> visited[i] in students && filtered[i] == students[visited[i]]
    ensures forall name :: name in visited <==> name in BelowKeys(students, threshold)
    ensures forall s :: s in filtered ==> s.avg < threshold
  {
    filtered, visited := [], [];
    var remaining := students.Keys;
    while remaining != {}
      invariant remaining <= students.Keys
      invariant |filtered| == |visited|
      invariant |visited| + |remaining| <= |students|
      invariant Distinct(visited)
      invariant forall i :: 0 <= i < |visited| ==>
                  visited[i] in students && visited[i] !in remaining && filtered[i] == students[visited[i]]
      invariant forall name :: name in visited <==>
                  name in students && name !in remaining && students[name].avg < threshold
      decreases |remaining|
    {
      var name :| name in remaining;
      var student := students[name];
      if student.avg < threshold {
        filtered := filtered + [student];
        visited := visited + [name];
      }
      remaining := remaining - {name};
    }
  }

  /**
    * In a store built by add every average lies in [1, 5]: a threshold of at
    * most 1 selects nobody and a threshold above 5 selects everybody.
    */
  lemma FilterExtremes(students: map<string, Student>, threshold: real)
    requires WellFormedStore(students)
    ensures threshold <= 1.0 ==> BelowKeys(students, threshold) == {}
    ensures threshold > 5.0 ==> BelowKeys(students, threshold) == students.Keys
  {
    forall name | name in students
      ensures 1.0 <= students[name].avg <= 5.0
    {
      MeanInRange(students[name].grades);
    }
  }

  // ---------------------------------------------------------------------------
  // Command dispatch (main)
  // ---------------------------------------------------------------------------

  datatype Command = Add | List | Filter | Help | Exit | Unknown

  /** The command a trimmed input line names; matching is exact and case-sensitive. */
  function ParseCommand(line: string): (c: Command)
    ensures c != Unknown ==> Keyword(c) == line
  {
    if line == "add" then Add
    else if line == "list" then List
    else if line == "filter" then Filter
    else if line == "help" then Help
    else if line == "exit" then Exit
    else Unknown
  }

  function Keyword(c: Command): string
    requires c != Unknown
  {
    match c
    case Add => "add"
    case List => "list"
    case Filter => "filter"
    case Help => "help"
    case Exit => "exit"
  }

  /** Each command is named by exactly one line, its keyword; every other line is unknown. */
  lemma ParseCommandKeyword(line: string, c: Command)
    ensures c != Unknown ==> ParseCommand(Keyword(c)) == c
    ensures ParseCommand(line) != Unknown ==> Keyword(ParseCommand(line)) == line
  {
  }

  // ---------------------------------------------------------------------------
  // Worked scenarios
  // ---------------------------------------------------------------------------

  /** On the line "5 x 9 3", x is not a number and 9 is out of range; 5 and 3 are kept in that order. */
  lemma MixedLineScenario()
    ensures Judge("5") == Accepted(5) && Judge("x") == NotANumber
    ensures Judge("9") == OutOfRange(9) && Judge("3") == Accepted(3)
    ensures KeptGrades(["5", "x", "9", "3"]) == [5, 3]
  {
    AtoiSingleDigit('5');
    AtoiSingleDigit('9');
    AtoiSingleDigit('3');
    AtoiRejects("x");
    var t0: seq<string> := [];
    FlatMapSnoc(GradeOf, t0, "5");
    var t1 := t0 + ["5"];
    FlatMapSnoc(GradeOf, t1, "x");
    var t2 := t1 + ["x"];
    FlatMapSnoc(GradeOf, t2, "9");
    var t3 := t2 + ["9"];
    FlatMapSnoc(GradeOf, t3, "3");
    assert t3 + ["3"] == ["5", "x", "9", "3"];
  }

  /** The line "5 4 3" and then an empty line store [5, 4, 3] with average 4. */
  lemma SingleLineScenario()
    ensures Collect([["5", "4", "3"], []]) == Finalized([5, 4, 3], 2)
    ensures Mean([5, 4, 3]) == 4.0
  {
    AtoiSingleDigit('5');
    AtoiSingleDigit('4');
    AtoiSingleDigit('3');
    var t0: seq<string> := [];
    FlatMapSnoc(GradeOf, t0, "5");
    var t1 := t0 + ["5"];
    FlatMapSnoc(GradeOf, t1, "4");
    var t2 := t1 + ["4"];
    FlatMapSnoc(GradeOf, t2, "3");
    assert t2 + ["3"] == ["5", "4", "3"];
    var lines := [["5", "4", "3"], []];
    assert CollectFrom(lines, 1, [5, 4, 3]) == Finalized([5, 4, 3], 2);
    assert [] + KeptGrades(lines[0]) == [5, 4, 3];
    var gs := [5, 4, 3];
    assert gs[..2] == [5, 4] && gs[..2][..1] == [5] && [5][..0] == [];
    assert Sum([5]) == 5 && Sum([5, 4]) == 9 && Sum(gs) == 12;
  }

  /** The line "2 2" and then an empty line store [2, 2] with average 2. */
  lemma RepeatedGradeScenario()
    ensures Collect([["2", "2"], []]) == Finalized([2, 2], 2)
    ensures Mean([2, 2]) == 2.0
  {
    AtoiSingleDigit('2');
    FlatMapSnoc(GradeOf, [], "2");
    FlatMapSnoc(GradeOf, ["2"], "2");
    var lines := [["2", "2"], []];
    assert CollectFrom(lines, 1, [2, 2]) == Finalized([2, 2], 2);
    assert [] + KeptGrades(lines[0]) == [2, 2];
    var gs := [2, 2];
    assert gs[..1] == [2] && [2][..0] == [];
  }

  /**
    * Adding "Ivanov Ivan" with 5 4 3 and "Petrov Petr" with 2 2, then
    * "Petrov Petr" again, rejects the second Petrov; filtering below 3.5 then
    * yields Petrov alone.
    */
  method JournalScenario() returns (again: AddOutcome, below: seq<Student>)
    ensures again == DuplicateName
    ensures below == [Student("Petrov Petr", [2, 2], 2.0)]
  {
    var ivanovLines, petrovLines := [["5", "4", "3"], []], [["2", "2"], []];
    SingleLineScenario();
    RepeatedGradeScenario();
    var journal := new Journal();
    var first := journal.AddStudent("Ivanov Ivan", ivanovLines);
    var second := journal.AddStudent("Petrov Petr", petrovLines);
    ghost var stored := journal.students;
    again := journal.AddStudent("Petrov Petr", [["5"], []]);
    assert again == DuplicateName && journal.students == stored;
    var ivanov := Student("Ivanov Ivan", [5, 4, 3], 4.0);
    var petrov := Student("Petrov Petr", [2, 2], 2.0);
    assert journal.students == map["Ivanov Ivan" := ivanov, "Petrov Petr" := petrov];
    ghost var visited;
    below, visited := FilterStudentsByAvg(journal.students, 3.5);
    PetrovAloneBelow(journal.students, visited);
  }

  lemma PetrovAloneBelow(students: map<string, Student>, visited: seq<string>)
    requires students == map["Ivanov Ivan" := Student("Ivanov Ivan", [5, 4, 3], 4.0),
                             "Petrov Petr" := Student("Petrov Petr", [2, 2], 2.0)]
    requires Distinct(visited)
    requires forall name :: name in visited <==> name in BelowKeys(students, 3.5)
    ensures visited == ["Petrov Petr"]
  {
    assert BelowKeys(students, 3.5) == {"Petrov Petr"};
    DistinctBound(visited, {"Petrov Petr"});
    assert "Petrov Petr" in visited;
    assert visited[0] in visited;
  }

  /** A sequence of distinct names drawn from a set is no longer than the set. */
  lemma {:induction false} DistinctBound(names: seq<string>, pool: set<string>)
    requires Distinct(names)
    requires forall n :: n in names ==> n in pool
    ensures |names| <= |pool|
  {
    if names != [] {
      var init, last := names[..|names| - 1], names[|names| - 1];
      forall n | n in init
        ensures n in pool - {last}
      {
        var i :| 0 <= i < |init| && init[i] == n;
        assert names[i] == n;
      }
      DistinctBound(init, pool - {last});
    }
  }
}
