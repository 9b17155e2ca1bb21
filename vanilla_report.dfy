/**
 * The plain-JavaScript prototype's examination protocol (app.js,
 * `Router.downloadReport`): the selected results looked up by id, then a
 * header naming the client and one section per result, built with
 * `report +=` in a loop.
 */
module VanillaReport {
  import opened Wrappers
  import Text
  import Lists
  import opened VanillaCatalog
  import opened VanillaDb

  const Title: string := "ПРОТОКОЛ ПСИХОЛОГИЧЕСКОГО ОБСЛЕДОВАНИЯ\n"
  const ScoreTag: string := "Итоговый балл: "
  /** The blank line after the score and the heading over the interpretation. */
  const InterpretationTag: string := "\n\nИНТЕРПРЕТАЦИЯ:\n"

  /** The separator line, 60 `=` characters. */
  function Rule(): (s: string)
    ensures |s| == 60 && forall i :: 0 <= i < 60 ==> s[i] == '='
  {
    Lists.Repeat('=', 60)
  }

  /**
   * `resultIds.map(id => DB.getResult(id)).filter(Boolean)`: for each
   * selected id in turn, the first stored result with that id; ids with no
   * stored result are dropped.
   */
  function Selected(stored: seq<Result>, ids: seq<string>): (rs: seq<Result>)
    ensures |rs| <= |ids|
  {
    if ids == [] then []
    else
      var found := FirstWithId(stored, ids[|ids| - 1]);
      Selected(stored, ids[..|ids| - 1]) + (if found.Some? then [found.value] else [])
  }

  /** Selecting more ids adds their results after those already selected. */
  lemma {:induction false} SelectedAppend(stored: seq<Result>, ids: seq<string>, more: seq<string>)
    ensures Selected(stored, ids + more) == Selected(stored, ids) + Selected(stored, more)
    decreases |more|
  {
    if more == [] {
      assert ids + more == ids;
    } else {
      var n := |more| - 1;
      assert (ids + more)[..|ids + more| - 1] == ids + more[..n];
      SelectedAppend(stored, ids, more[..n]);
    }
  }

  /** Every selected result is a stored result with one of the selected ids. */
  lemma {:induction false} SelectedFromStore(stored: seq<Result>, ids: seq<string>, r: Result)
    requires r in Selected(stored, ids)
    ensures r in stored && r.id in ids
  {
    var n := |ids| - 1;
    var found := FirstWithId(stored, ids[n]);
    if r in Selected(stored, ids[..n]) {
      SelectedFromStore(stored, ids[..n], r);
      assert ids[..n] <= ids;
    } else {
      assert r == found.value;
    }
  }

  /** When every selected id is found, the protocol has one result per id. */
  lemma {:induction false} SelectedLength(stored: seq<Result>, ids: seq<string>)
    requires forall k :: 0 <= k < |ids| ==> FirstWithId(stored, ids[k]).Some?
    ensures |Selected(stored, ids)| == |ids|
  {
    if ids != [] {
      var n := |ids| - 1;
      var prefix := ids[..n];
      forall k | 0 <= k < n
        ensures FirstWithId(stored, prefix[k]).Some?
      {
        assert prefix[k] == ids[k];
      }
      SelectedLength(stored, prefix);
    }
  }

  /**
   * When every selected id is found, the protocol has exactly one result
   * per id, in selection order, each the first stored result with that id.
   */
  lemma {:induction false} SelectedKeepsOrder(stored: seq<Result>, ids: seq<string>, k: nat)
    requires forall i :: 0 <= i < |ids| ==> FirstWithId(stored, ids[i]).Some?
    requires k < |ids|
    ensures |Selected(stored, ids)| == |ids|
    ensures Some(Selected(stored, ids)[k]) == FirstWithId(stored, ids[k])
  {
    var n := |ids| - 1;
    var prefix := ids[..n];
    forall i | 0 <= i < n
      ensures FirstWithId(stored, prefix[i]).Some?
    {
      assert prefix[i] == ids[i];
    }
    SelectedLength(stored, prefix);
    SelectedLast(stored, ids);
    if k < n {
      SelectedKeepsOrder(stored, prefix, k);
      assert prefix[k] == ids[k];
    }
  }

  /** A found last id puts its result after those of the ids before it. */
  lemma SelectedLast(stored: seq<Result>, ids: seq<string>)
    requires ids != [] && FirstWithId(stored, ids[|ids| - 1]).Some?
    ensures Selected(stored, ids) == Selected(stored, ids[..|ids| - 1]) + [FirstWithId(stored, ids[|ids| - 1]).value]
  {
  }

  /** The header: title, rule, client name, birth date, examination date, rule. */
  function Head(client: Client, shownBirthDate: string, shownToday: string): string {
    Title
    + Rule() + "\n\n"
    + "Клиент: " + client.name + "\n"
    + "Дата рождения: " + shownBirthDate + "\n"
    + "Дата обследования: " + shownToday + "\n\n"
    + Rule() + "\n\n"
  }

  /** A section's lines above its score. */
  function SectionLines(test: Test, shownDate: string): string {
    ("МЕТОДИКА: " + test.name + "\n")
    + test.description
    + ("\n" + "Дата проведения: " + shownDate + "\n\n")
  }

  /** A section's lines below its score: the stored interpretation and the closing rule. */
  function SectionTail(interpretation: string): (s: string)
    ensures |s| > 0 && s[0] == '\n'
  {
    InterpretationTag + interpretation + ("\n\n" + Rule() + "\n\n")
  }

  /** The section `forEach` appends for one result taken by `test`. */
  function Section(test: Test, result: Result, shownDate: string): string {
    (SectionLines(test, shownDate) + ScoreTag) + (Text.IntToString(result.score) + SectionTail(result.interpretation))
  }

  /** Every result's test is in the table, as `TESTS[result.testId].name` needs. */
  predicate KnownTests(results: seq<Result>) {
    forall i :: 0 <= i < |results| ==> TestById(results[i].testId).Some?
  }

  function Sections(results: seq<Result>, formatMoment: string -> string): (ss: seq<string>)
    requires KnownTests(results)
    ensures |ss| == |results|
    ensures forall i :: 0 <= i < |results| ==>
              ss[i] == Section(TestById(results[i].testId).value, results[i], formatMoment(results[i].date))
  {
    seq(|results|, i requires 0 <= i < |results| =>
      Section(TestById(results[i].testId).value, results[i], formatMoment(results[i].date)))
  }

  /** The whole protocol: the header, then one section per result in order. */
  function ProtocolText(head: string, sections: seq<string>): string {
    head + Text.Concat(sections)
  }

  /**
   * The text `downloadReport` assembles: the header, then a `forEach` over
   * the results appending each one's section. `formatMoment` stands for
   * `new Date(result.date).toLocaleString('ru-RU')`.
   */
  method BuildReport(client: Client, results: seq<Result>, shownBirthDate: string, shownToday: string,
                     formatMoment: string -> string) returns (report: string)
    requires KnownTests(results)
    ensures report == ProtocolText(Head(client, shownBirthDate, shownToday), Sections(results, formatMoment))
  {
    var head := Head(client, shownBirthDate, shownToday);
    var sections := Sections(results, formatMoment);
    report := head;
    var i := 0;
    while i < |results|
      invariant 0 <= i <= |results|
      invariant report == head + Text.Concat(sections[..i])
    {
      Text.ConcatSnoc(head, sections, i);
      report := report + sections[i];
      i := i + 1;
    }
    assert sections[..i] == sections;
  }

  /** Section `i` sits right after the header and the sections before it, whole and in order. */
  lemma SectionAt(head: string, sections: seq<string>, i: nat)
    requires i < |sections|
    ensures var text := ProtocolText(head, sections);
            var at := |head| + |Text.Concat(sections[..i])|;
            at + |sections[i]| <= |text| && text[at..at + |sections[i]|] == sections[i]
  {
    Text.PartAfterPrefix(head, sections, i);
  }

  /** The protocol opens with its header. */
  lemma ProtocolOpensWithHead(head: string, sections: seq<string>)
    ensures |head| <= |ProtocolText(head, sections)| && ProtocolText(head, sections)[..|head|] == head
  {
  }

  /** The header opens with the title and the client's name follows the first rule. */
  lemma HeadNamesClient(client: Client, shownBirthDate: string, shownToday: string)
    ensures var head := Head(client, shownBirthDate, shownToday);
            var at := |Title + Rule() + "\n\n" + "Клиент: "|;
            && at + |client.name| <= |head|
            && head[..|Title|] == Title
            && head[at..at + |client.name|] == client.name
  {
    var head := Head(client, shownBirthDate, shownToday);
    var before := Title + Rule() + "\n\n" + "Клиент: ";
    assert head[..|before + client.name|] == before + client.name;
    assert (before + client.name)[|before|..] == client.name;
  }

  /**
   * The birth date follows "Дата рождения: " on the line after the client's
   * name, and the examination date follows "Дата обследования: " on the next.
   */
  lemma HeadShowsDates(client: Client, shownBirthDate: string, shownToday: string)
    ensures var head := Head(client, shownBirthDate, shownToday);
            var born := |Title + Rule() + "\n\n" + "Клиент: " + client.name + "\n" + "Дата рождения: "|;
            var today := born + |shownBirthDate + "\n" + "Дата обследования: "|;
            && born + |shownBirthDate| <= |head| && head[born..born + |shownBirthDate|] == shownBirthDate
            && today + |shownToday| <= |head| && head[today..today + |shownToday|] == shownToday
  {
  }

  /** The result's date follows "Дата проведения: " on the line after the description. */
  lemma SectionShowsDate(test: Test, result: Result, shownDate: string)
    ensures var section := Section(test, result, shownDate);
            var at := |"МЕТОДИКА: " + test.name + "\n" + test.description + "\n" + "Дата проведения: "|;
            at + |shownDate| <= |section| && section[at..at + |shownDate|] == shownDate
  {
  }

  /**
   * A section opens with the test's name and its score reads back right
   * after the score label.
   */
  lemma SectionShowsScore(test: Test, result: Result, shownDate: string)
    ensures var section := Section(test, result, shownDate);
            var at := |SectionLines(test, shownDate)| + |ScoreTag|;
            && |"МЕТОДИКА: " + test.name| <= at <= |section|
            && section[..|"МЕТОДИКА: " + test.name|] == "МЕТОДИКА: " + test.name
            && section[at - |ScoreTag|..at] == ScoreTag
            && Text.ParseInt(section[at..]) == Some(result.score)
  {
    var lines := SectionLines(test, shownDate);
    var after := SectionTail(result.interpretation);
    var section := Section(test, result, shownDate);
    Text.NumberAfterLabel(lines, ScoreTag, result.score, after, "");
    assert section + "" == section;
    assert lines[..|"МЕТОДИКА: " + test.name|] == "МЕТОДИКА: " + test.name;
  }

  /** The test's description is the section's second line, right after the name line. */
  lemma SectionShowsDescription(test: Test, result: Result, shownDate: string)
    ensures var section := Section(test, result, shownDate);
            var at := |"МЕТОДИКА: " + test.name + "\n"|;
            at + |test.description| <= |section| && section[at..at + |test.description|] == test.description
  {
    var nameLine := "МЕТОДИКА: " + test.name + "\n";
    var lines := SectionLines(test, shownDate);
    var section := Section(test, result, shownDate);
    Text.Between(nameLine, test.description, "\n" + "Дата проведения: " + shownDate + "\n\n");
    assert section[0..|lines|] == lines;
    Text.WithinPiece(section, lines, 0, |nameLine|, |test.description|);
  }

  /**
   * The stored interpretation appears whole under the "ИНТЕРПРЕТАЦИЯ:" line
   * that follows the score.
   */
  lemma SectionShowsInterpretation(test: Test, result: Result, shownDate: string)
    ensures var section := Section(test, result, shownDate);
            var at := |SectionLines(test, shownDate)| + |ScoreTag| + |Text.IntToString(result.score)|
                      + |InterpretationTag|;
            at + |result.interpretation| <= |section|
            && section[at..at + |result.interpretation|] == result.interpretation
  {
    var section := Section(test, result, shownDate);
    var p := |SectionLines(test, shownDate)| + |ScoreTag| + |Text.IntToString(result.score)|;
    var tail := SectionTail(result.interpretation);
    assert section[p..p + |tail|] == tail;
    Text.Between(InterpretationTag, result.interpretation, "\n\n" + Rule() + "\n\n");
    Text.WithinPiece(section, tail, p, |InterpretationTag|, |result.interpretation|);
  }
}
