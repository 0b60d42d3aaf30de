/**
 The listings the test suite expects, derived from the general definitions:
 the table, its order and the "Missing priorities" section for the three
 stores the listing tests write.
 */
module ListingExamples {
  import opened Text
  import opened Store
  import opened Listing

  /** A non-empty store is listed as the header, its sorted rows and the missing-priority section. */
  lemma ListOutputOf(m: Todos, es: seq<Entry>, ms: seq<int>)
    requires m != map[] && SortedEntries(m) == es && MissingPriorities(m) == ms
    ensures ListOutput(m) == Header + Rows(es) + MissingSection(ms)
  {
  }

  /** A sequence that enumerates a store with each entry preceding the next is its listing order. */
  lemma SortedAs(m: Todos, es: seq<Entry>)
    requires forall i :: 0 <= i < |es| - 1 ==> Precedes(es[i], es[i + 1])
    requires ListsExactly(es, m)
    ensures SortedEntries(m) == es
  {
    SortedFromAdjacent(es);
    SortedEntriesUnique(m, es);
  }

  lemma RowsStep(es: seq<Entry>, i: nat)
    requires i < |es|
    ensures Rows(es[i..]) == Row(es[i]) + Rows(es[i + 1..])
  {
    assert es[i..][1..] == es[i + 1..];
  }

  // test_list_basic: priorities 1 and 3.

  function BasicStore(): Todos {
    map["1234" := Todo(1, "Foo"), "4567" := Todo(3, "Bar")]
  }

  function BasicRows(): seq<Entry> {
    [Entry("1234", Todo(1, "Foo")), Entry("4567", Todo(3, "Bar"))]
  }

  lemma BasicSorted()
    ensures SortedEntries(BasicStore()) == BasicRows()
  {
    var m, es := BasicStore(), BasicRows();
    assert es[0] == Entry("1234", m["1234"]) && es[1] == Entry("4567", m["4567"]);
    SortedAs(m, es);
  }

  lemma BasicMissing()
    ensures MissingPriorities(BasicStore()) == [2]
  {
    var m := BasicStore();
    BasicSorted();
    assert MaxPriority(m) == 3;
    assert 1 in Priorities(m) by { assert m["1234"].priority == 1; }
    assert 2 !in Priorities(m);
    assert Gaps(2, 3, Priorities(m)) == [2];
  }

  lemma RowOneFoo()
    ensures Row(Entry("1234", Todo(1, "Foo"))) == "       1  1234  Foo\n"
  {
    assert IntToString(1) == "1";
    assert RightJustify("1", 8) == "       1";
  }

  lemma RowThreeBar()
    ensures Row(Entry("4567", Todo(3, "Bar"))) == "       3  4567  Bar\n"
  {
    assert IntToString(3) == "3";
    assert RightJustify("3", 8) == "       3";
  }

  lemma NumeralTwo()
    ensures Join(Numerals([2]), ", ") == "2"
  {
    assert IntToString(2) == "2";
    assert [2][1..] == [];
    assert Numerals([2]) == ["2"];
  }

  lemma BasicMissingText()
    ensures MissingSection([2]) == "\n" + "Missing priorities:\n" + "2" + "\n"
  {
    NumeralTwo();
  }

  lemma BasicText()
    ensures Rows(BasicRows()) == "       1  1234  Foo\n" + ("       3  4567  Bar\n" + "")
  {
    var es := BasicRows();
    RowOneFoo();
    RowThreeBar();
    RowsStep(es, 1);
    RowsStep(es, 0);
    assert es[2..] == [];
  }

  /** Both rows in priority order, then priority 2 reported missing. */
  lemma ListBasic()
    ensures ListOutput(BasicStore()) ==
      "Priority  ID    Todo\n" +
      ("       1  1234  Foo\n" + ("       3  4567  Bar\n" + "")) +
      ("\n" + "Missing priorities:\n" + "2" + "\n")
  {
    BasicSorted();
    BasicMissing();
    BasicText();
    BasicMissingText();
    ListOutputOf(BasicStore(), BasicRows(), [2]);
  }

  /** A store holding one todo at priority 1: one row and nothing missing. */
  lemma ListSingle()
    ensures ListOutput(map["1234" := Todo(1, "Foo")]) == "Priority  ID    Todo\n" + ("       1  1234  Foo\n" + "")
  {
    var m := map["1234" := Todo(1, "Foo")];
    var es := [Entry("1234", Todo(1, "Foo"))];
    assert es[0] == Entry("1234", m["1234"]);
    SortedAs(m, es);
    assert MaxPriority(m) == 1;
    assert MissingPriorities(m) == [];
    RowOneFoo();
    ListOutputOf(m, es, []);
  }

  // test_list_no_missing_priorities: priorities 1 and 2.

  function NoGapStore(): Todos {
    map["1234" := Todo(1, "Foo"), "4567" := Todo(2, "Bar")]
  }

  function NoGapRows(): seq<Entry> {
    [Entry("1234", Todo(1, "Foo")), Entry("4567", Todo(2, "Bar"))]
  }

  lemma NoGapSorted()
    ensures SortedEntries(NoGapStore()) == NoGapRows()
  {
    var m, es := NoGapStore(), NoGapRows();
    assert es[0] == Entry("1234", m["1234"]) && es[1] == Entry("4567", m["4567"]);
    SortedAs(m, es);
  }

  lemma NoGapMissing()
    ensures MissingPriorities(NoGapStore()) == []
  {
    var m := NoGapStore();
    NoGapSorted();
    assert MaxPriority(m) == 2;
    assert 1 in Priorities(m) by { assert m["1234"].priority == 1; }
    assert Gaps(1, 2, Priorities(m)) == [];
  }

  lemma RowTwoBar()
    ensures Row(Entry("4567", Todo(2, "Bar"))) == "       2  4567  Bar\n"
  {
    assert IntToString(2) == "2";
    assert RightJustify("2", 8) == "       2";
  }

  lemma NoGapText()
    ensures Rows(NoGapRows()) == "       1  1234  Foo\n" + ("       2  4567  Bar\n" + "")
  {
    var es := NoGapRows();
    RowOneFoo();
    RowTwoBar();
    RowsStep(es, 1);
    RowsStep(es, 0);
    assert es[2..] == [];
  }

  /** No gap below the highest priority, so no "Missing priorities" section at all. */
  lemma ListNoMissingPriorities()
    ensures ListOutput(NoGapStore()) ==
      "Priority  ID    Todo\n" +
      ("       1  1234  Foo\n" + ("       2  4567  Bar\n" + ""))
  {
    NoGapSorted();
    NoGapMissing();
    NoGapText();
    ListOutputOf(NoGapStore(), NoGapRows(), []);
  }

  // test_list_complex: six todos, two of them at priority 12.

  function ComplexStore(): Todos {
    map["4567" := Todo(9, "Foo"), "as43" := Todo(7, "Bar"),
        "1234" := Todo(12, "This is a test for a todo list."), "92f2" := Todo(5, "1251"),
        "rc23" := Todo(16, ".;.p35..5===ppp..r2.[[.12=2-0{}`.`"), "8b42" := Todo(12, "")]
  }

  function ComplexRows(): seq<Entry> {
    [Entry("92f2", Todo(5, "1251")), Entry("as43", Todo(7, "Bar")), Entry("4567", Todo(9, "Foo")),
     Entry("1234", Todo(12, "This is a test for a todo list.")), Entry("8b42", Todo(12, "")),
     Entry("rc23", Todo(16, ".;.p35..5===ppp..r2.[[.12=2-0{}`.`"))]
  }

  /** Equal priorities 12: "1234" comes before "8b42". */
  lemma ComplexSorted()
    ensures SortedEntries(ComplexStore()) == ComplexRows()
  {
    var m, es := ComplexStore(), ComplexRows();
    assert LexLess("1234", "8b42");
    assert ListsExactly(es, m) by {
      assert es[0] == Entry("92f2", m["92f2"]);
      assert es[1] == Entry("as43", m["as43"]);
      assert es[2] == Entry("4567", m["4567"]);
      assert es[3] == Entry("1234", m["1234"]);
      assert es[4] == Entry("8b42", m["8b42"]);
      assert es[5] == Entry("rc23", m["rc23"]);
    }
    SortedAs(m, es);
  }

  lemma ComplexPriorities()
    ensures Priorities(ComplexStore()) == {5, 7, 9, 12, 16}
  {
    var m := ComplexStore();
    var ps := Priorities(m);
    assert m.Keys == {"4567", "as43", "1234", "92f2", "rc23", "8b42"};
    assert ps <= {5, 7, 9, 12, 16};
    assert 5 in ps by { assert m["92f2"].priority == 5; }
    assert 7 in ps by { assert m["as43"].priority == 7; }
    assert 9 in ps by { assert m["4567"].priority == 9; }
    assert 12 in ps by { assert m["1234"].priority == 12; }
    assert 16 in ps by { assert m["rc23"].priority == 16; }
  }

  lemma UpperGaps()
    ensures Gaps(9, 16, {5, 7, 9, 12, 16}) == [10, 11, 13, 14, 15]
  {
    var ps: set<int> := {5, 7, 9, 12, 16};
    assert Gaps(16, 16, ps) == [];
    assert Gaps(15, 16, ps) == [15];
    assert Gaps(14, 16, ps) == [14, 15];
    assert Gaps(13, 16, ps) == [13, 14, 15];
    assert Gaps(12, 16, ps) == [13, 14, 15];
    assert Gaps(11, 16, ps) == [11, 13, 14, 15];
    assert Gaps(10, 16, ps) == [10, 11, 13, 14, 15];
  }

  lemma ComplexGaps()
    ensures Gaps(1, 16, {5, 7, 9, 12, 16}) == [1, 2, 3, 4, 6, 8, 10, 11, 13, 14, 15]
  {
    var ps: set<int> := {5, 7, 9, 12, 16};
    UpperGaps();
    assert Gaps(8, 16, ps) == [8, 10, 11, 13, 14, 15];
    assert Gaps(7, 16, ps) == [8, 10, 11, 13, 14, 15];
    assert Gaps(6, 16, ps) == [6, 8, 10, 11, 13, 14, 15];
    assert Gaps(5, 16, ps) == [6, 8, 10, 11, 13, 14, 15];
    assert Gaps(4, 16, ps) == [4, 6, 8, 10, 11, 13, 14, 15];
    assert Gaps(3, 16, ps) == [3, 4, 6, 8, 10, 11, 13, 14, 15];
    assert Gaps(2, 16, ps) == [2, 3, 4, 6, 8, 10, 11, 13, 14, 15];
    assert Gaps(1, 16, ps) == [1, 2, 3, 4, 6, 8, 10, 11, 13, 14, 15];
  }

  /** The highest priority is 16; below it, every unused priority from 1 on is missing. */
  lemma ComplexMissing()
    ensures MissingPriorities(ComplexStore()) == [1, 2, 3, 4, 6, 8, 10, 11, 13, 14, 15]
  {
    ComplexSorted();
    assert MaxPriority(ComplexStore()) == 16;
    ComplexPriorities();
    ComplexGaps();
  }

  lemma Twelve()
    ensures IntToString(12) == "12"
  {
    assert NatToString(12) == NatToString(1) + [DigitChar(2)];
  }

  lemma Sixteen()
    ensures IntToString(16) == "16"
  {
    assert NatToString(16) == NatToString(1) + [DigitChar(6)];
  }

  lemma RowFive()
    ensures Row(Entry("92f2", Todo(5, "1251"))) == "       5  92f2  1251\n"
  {
    assert IntToString(5) == "5";
    assert RightJustify("5", 8) == "       5";
  }

  lemma RowSeven()
    ensures Row(Entry("as43", Todo(7, "Bar"))) == "       7  as43  Bar\n"
  {
    assert IntToString(7) == "7";
    assert RightJustify("7", 8) == "       7";
  }

  lemma RowNine()
    ensures Row(Entry("4567", Todo(9, "Foo"))) == "       9  4567  Foo\n"
  {
    assert IntToString(9) == "9";
    assert RightJustify("9", 8) == "       9";
  }

  /** The two rows at priority 12, column by column: priority, ID, text. */
  lemma ComplexTiedRows()
    ensures Row(ComplexRows()[3]) ==
      "      12" + "  " + "1234" + "  " + "This is a test for a todo list." + "\n"
    ensures Row(ComplexRows()[4]) == "      12" + "  " + "8b42" + "  " + "" + "\n"
  {
    Twelve();
    assert RightJustify("12", 8) == "      12";
  }

  lemma RowSixteen()
    ensures Row(ComplexRows()[5]) == "      16" + "  " + "rc23" + "  " + ".;.p35..5===ppp..r2.[[.12=2-0{}`.`" + "\n"
  {
    Sixteen();
    assert RightJustify("16", 8) == "      16";
  }

  /** The last two rows: the one at priority 12 with empty text, then the one at 16. */
  lemma ComplexLastRows()
    ensures Rows(ComplexRows()[4..]) ==
      ("      12" + "  " + "8b42" + "  " + "" + "\n") +
      (("      16" + "  " + "rc23" + "  " + ".;.p35..5===ppp..r2.[[.12=2-0{}`.`" + "\n") + "")
  {
    var es := ComplexRows();
    ComplexTiedRows();
    RowSixteen();
    RowsStep(es, 5);
    RowsStep(es, 4);
    assert es[6..] == [];
  }

  /** The last three rows: the two at priority 12, then the one at 16. */
  lemma ComplexTopText()
    ensures Rows(ComplexRows()[3..]) ==
      ("      12" + "  " + "1234" + "  " + "This is a test for a todo list." + "\n") +
      (("      12" + "  " + "8b42" + "  " + "" + "\n") +
      (("      16" + "  " + "rc23" + "  " + ".;.p35..5===ppp..r2.[[.12=2-0{}`.`" + "\n") + ""))
  {
    var es := ComplexRows();
    ComplexTiedRows();
    ComplexLastRows();
    RowsStep(es, 3);
  }

  /** The six rows, in listing order. */
  lemma ComplexText()
    ensures Rows(ComplexRows()) ==
      "       5  92f2  1251\n" + ("       7  as43  Bar\n" + ("       9  4567  Foo\n" +
      (("      12" + "  " + "1234" + "  " + "This is a test for a todo list." + "\n") +
      (("      12" + "  " + "8b42" + "  " + "" + "\n") +
      (("      16" + "  " + "rc23" + "  " + ".;.p35..5===ppp..r2.[[.12=2-0{}`.`" + "\n") + "")))))
  {
    var es := ComplexRows();
    RowFive();
    RowSeven();
    RowNine();
    ComplexTopText();
    RowsStep(es, 2);
    RowsStep(es, 1);
    RowsStep(es, 0);
  }

  lemma TwoDigitNumerals()
    ensures IntToString(10) == "10" && IntToString(11) == "11" && IntToString(13) == "13"
    ensures IntToString(14) == "14" && IntToString(15) == "15"
  {
    assert NatToString(10) == NatToString(1) + [DigitChar(0)];
    assert NatToString(11) == NatToString(1) + [DigitChar(1)];
    assert NatToString(13) == NatToString(1) + [DigitChar(3)];
    assert NatToString(14) == NatToString(1) + [DigitChar(4)];
    assert NatToString(15) == NatToString(1) + [DigitChar(5)];
  }

  lemma SmallNumerals()
    ensures Numerals([1, 2, 3, 4, 6, 8]) == ["1", "2", "3", "4", "6", "8"]
  {
    assert IntToString(1) == "1" && IntToString(2) == "2" && IntToString(3) == "3";
    assert IntToString(4) == "4" && IntToString(6) == "6" && IntToString(8) == "8";
    assert Numerals([8]) == ["8"];
    assert Numerals([6, 8]) == ["6"] + Numerals([8]);
    assert Numerals([4, 6, 8]) == ["4"] + Numerals([6, 8]);
    assert Numerals([3, 4, 6, 8]) == ["3"] + Numerals([4, 6, 8]);
    assert Numerals([2, 3, 4, 6, 8]) == ["2"] + Numerals([3, 4, 6, 8]);
  }

  lemma LargeNumerals()
    ensures Numerals([10, 11, 13, 14, 15]) == ["10", "11", "13", "14", "15"]
  {
    TwoDigitNumerals();
    assert Numerals([15]) == ["15"];
    assert Numerals([14, 15]) == ["14"] + Numerals([15]);
    assert Numerals([13, 14, 15]) == ["13"] + Numerals([14, 15]);
    assert Numerals([11, 13, 14, 15]) == ["11"] + Numerals([13, 14, 15]);
  }

  lemma ComplexNumerals()
    ensures Numerals([1, 2, 3, 4, 6, 8, 10, 11, 13, 14, 15]) ==
      ["1", "2", "3", "4", "6", "8"] + ["10", "11", "13", "14", "15"]
  {
    SmallNumerals();
    LargeNumerals();
    assert [1, 2, 3, 4, 6, 8, 10, 11, 13, 14, 15] == [1, 2, 3, 4, 6, 8] + [10, 11, 13, 14, 15];
    NumeralsAppend([1, 2, 3, 4, 6, 8], [10, 11, 13, 14, 15]);
  }

  lemma SmallMissingText()
    ensures Join(["1", "2", "3", "4", "6", "8"], ", ") == "1, 2, 3, 4, 6, 8"
  {
    assert Join(["8"], ", ") == "8";
    assert Join(["6", "8"], ", ") == "6" + ", " + Join(["8"], ", ");
    assert Join(["4", "6", "8"], ", ") == "4" + ", " + Join(["6", "8"], ", ");
    assert Join(["3", "4", "6", "8"], ", ") == "3" + ", " + Join(["4", "6", "8"], ", ");
    assert Join(["2", "3", "4", "6", "8"], ", ") == "2" + ", " + Join(["3", "4", "6", "8"], ", ");
  }

  lemma LargeMissingText()
    ensures Join(["10", "11", "13", "14", "15"], ", ") == "10, 11, 13, 14, 15"
  {
    assert Join(["15"], ", ") == "15";
    assert Join(["14", "15"], ", ") == "14" + ", " + Join(["15"], ", ");
    assert Join(["13", "14", "15"], ", ") == "13" + ", " + Join(["14", "15"], ", ");
    assert Join(["11", "13", "14", "15"], ", ") == "11" + ", " + Join(["13", "14", "15"], ", ");
  }

  /** The missing-priority line: the eleven numbers separated by ", ". */
  lemma ComplexMissingText()
    ensures Join(Numerals([1, 2, 3, 4, 6, 8, 10, 11, 13, 14, 15]), ", ") ==
      "1, 2, 3, 4, 6, 8" + ", " + "10, 11, 13, 14, 15"
  {
    ComplexNumerals();
    SmallMissingText();
    LargeMissingText();
    JoinAppend(["1", "2", "3", "4", "6", "8"], ["10", "11", "13", "14", "15"], ", ");
  }

  /** Six todos: ascending priority, the two at priority 12 by ID, then eleven missing priorities. */
  lemma ListComplex()
    ensures ListOutput(ComplexStore()) ==
      "Priority  ID    Todo\n" +
      ("       5  92f2  1251\n" + ("       7  as43  Bar\n" + ("       9  4567  Foo\n" +
      (("      12" + "  " + "1234" + "  " + "This is a test for a todo list." + "\n") +
      (("      12" + "  " + "8b42" + "  " + "" + "\n") +
      (("      16" + "  " + "rc23" + "  " + ".;.p35..5===ppp..r2.[[.12=2-0{}`.`" + "\n") + "")))))) +
      ("\n" + "Missing priorities:\n" + ("1, 2, 3, 4, 6, 8" + ", " + "10, 11, 13, 14, 15") + "\n")
  {
    ComplexSorted();
    ComplexMissing();
    ComplexText();
    ComplexMissingText();
    assert "rc23" in ComplexStore();
    ListOutputOf(ComplexStore(), ComplexRows(), [1, 2, 3, 4, 6, 8, 10, 11, 13, 14, 15]);
  }
}
