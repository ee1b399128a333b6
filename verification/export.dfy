/** The "Export History" action: the application list rendered as a CSV data URI.
    Fields are joined with commas and rows with newlines, with no quoting or
    escaping, exactly as the source builds the text. */
module Export {
  import opened Wrappers
  import opened Types
  import Seqs
  import Text

  const DataUriPrefix: string := "data:text/csv;charset=utf-8,"
  const HeaderFields: seq<string> := ["Company", "Role", "Platform", "Status", "Date", "Match Score"]
  const NoDataMessage: string := "No application data to export."

  /** The six cells of one application's row, in header order. */
  function Fields(a: JobApplication): seq<string> {
    [a.companyName, a.role, PlatformName(a.platform), StatusName(a.status),
     a.appliedDate, Text.IntToString(a.matchScore)]
  }

  function Row(a: JobApplication): string {
    Seqs.Join(Fields(a), ',')
  }

  function Rows(apps: seq<JobApplication>): seq<string> {
    seq(|apps|, i requires 0 <= i < |apps| => Row(apps[i]))
  }

  function HeaderLine(): string {
    Seqs.Join(HeaderFields, ',')
  }

  /** The export: refused with a message when there is nothing to export; otherwise the
      data-URI prefix, the header line, a newline and the rows joined by newlines. */
  function ExportCsv(apps: seq<JobApplication>): (r: Result<string, string>)
    ensures r.Err? <==> |apps| == 0
    ensures r.Err? ==> r.error == NoDataMessage
    ensures r.Ok? ==> |r.value| > |DataUriPrefix| && r.value[..|DataUriPrefix|] == DataUriPrefix
  {
    if |apps| == 0 then Err(NoDataMessage)
    else Ok(DataUriPrefix + HeaderLine() + "\n" + Seqs.Join(Rows(apps), '\n'))
  }

  /** A reference reading of CSV text without quoting: lines split at newlines, cells at commas. */
  function ParseCsv(text: string): seq<seq<string>> {
    var lines := Seqs.Split(text, '\n');
    seq(|lines|, i requires 0 <= i < |lines| => Seqs.Split(lines[i], ','))
  }

  /** A cell that survives the unquoted format: no comma and no newline. */
  predicate SeparatorFree(s: string) {
    ',' !in s && '\n' !in s
  }

  /** The free-text cells of an application survive the unquoted format. */
  predicate SeparatorFreeText(a: JobApplication) {
    SeparatorFree(a.companyName) && SeparatorFree(a.role) && SeparatorFree(a.appliedDate)
  }

  /** A cell that also survives the link: no comma, no newline, and no
      '#', which would start the link's fragment. */
  predicate PlainCell(s: string) {
    ',' !in s && '\n' !in s && '#' !in s
  }

  /** The free-text cells of an application are plain. */
  predicate PlainText(a: JobApplication) {
    PlainCell(a.companyName) && PlainCell(a.role) && PlainCell(a.appliedDate)
  }

  /** The cells the program itself produces (enumeration names, the score) are always plain. */
  lemma GeneratedCellsArePlain(a: JobApplication)
    ensures PlainCell(PlatformName(a.platform)) && PlainCell(StatusName(a.status))
    ensures PlainCell(Text.IntToString(a.matchScore))
  {
    PlatformNameIsPlain(a.platform);
    StatusNameIsPlain(a.status);
    ScoreIsPlain(a.matchScore);
  }

  /** Text made of letters and spaces only, as every fixed name of the export is. */
  predicate LettersAndSpaces(s: string) {
    forall k :: 0 <= k < |s| ==> ('A' <= s[k] <= 'Z' || 'a' <= s[k] <= 'z' || s[k] == ' ')
  }

  lemma LettersAndSpacesArePlain(s: string)
    requires LettersAndSpaces(s)
    ensures PlainCell(s)
  {
  }

  lemma PlatformNameIsPlain(p: Platform)
    ensures PlainCell(PlatformName(p))
  {
    assert LettersAndSpaces(PlatformName(p));
    LettersAndSpacesArePlain(PlatformName(p));
  }

  lemma StatusNameIsPlain(st: Status)
    ensures PlainCell(StatusName(st))
  {
    assert LettersAndSpaces(StatusName(st));
    LettersAndSpacesArePlain(StatusName(st));
  }

  lemma ScoreIsPlain(score: int)
    ensures PlainCell(Text.IntToString(score))
  {
  }

  /** A row whose free-text cells hold no separator is one line of six cells. A '#' in a
      cell ("C# Developer") does not matter here. */
  lemma {:induction false} RowIsOneLine(a: JobApplication)
    requires SeparatorFreeText(a)
    ensures '\n' !in Row(a)
    ensures Seqs.Split(Row(a), ',') == Fields(a)
  {
    GeneratedCellsArePlain(a);
    var f := Fields(a);
    assert forall i :: 0 <= i < |f| ==> ',' !in f[i] && '\n' !in f[i];
    Seqs.NotInJoin(f, ',', '\n');
    Seqs.SplitJoin(f, ',');
  }

  /** A row of plain cells has no '#'. */
  lemma {:induction false} RowHasNoFragmentMark(a: JobApplication)
    requires PlainText(a)
    ensures '#' !in Row(a)
  {
    GeneratedCellsArePlain(a);
    var f := Fields(a);
    assert forall i :: 0 <= i < |f| ==> '#' !in f[i];
    Seqs.NotInJoin(f, ',', '#');
  }

  /** No header name contains a comma, a newline or a '#'. */
  lemma HeaderCellsArePlain()
    ensures forall i :: 0 <= i < |HeaderFields| ==> PlainCell(HeaderFields[i])
  {
    forall i | 0 <= i < |HeaderFields| ensures PlainCell(HeaderFields[i]) {
      assert LettersAndSpaces(HeaderFields[i]);
      LettersAndSpacesArePlain(HeaderFields[i]);
    }
  }

  /** The header line is one line of six cells. */
  lemma HeaderLineParses()
    ensures '\n' !in HeaderLine() && '#' !in HeaderLine()
    ensures Seqs.Split(HeaderLine(), ',') == HeaderFields
  {
    HeaderCellsArePlain();
    Seqs.NotInJoin(HeaderFields, ',', '\n');
    Seqs.NotInJoin(HeaderFields, ',', '#');
    Seqs.SplitJoin(HeaderFields, ',');
  }

  /** Reading back newline-joined lines, each free of newlines, gives each line's cells. */
  lemma {:induction false} ParseJoinedLines(lines: seq<string>, cells: seq<seq<string>>)
    requires |lines| >= 1 && |cells| == |lines|
    requires forall i :: 0 <= i < |lines| ==> '\n' !in lines[i] && Seqs.Split(lines[i], ',') == cells[i]
    ensures ParseCsv(Seqs.Join(lines, '\n')) == cells
  {
    Seqs.SplitJoin(lines, '\n');
  }

  /** The CSV body after the data-URI prefix: the header line, then the rows, one per line. */
  lemma ExportBody(apps: seq<JobApplication>)
    requires |apps| > 0
    ensures ExportCsv(apps).Ok?
    ensures ExportCsv(apps).value[|DataUriPrefix|..] == Seqs.Join([HeaderLine()] + Rows(apps), '\n')
  {
  }

  /** The cells of every application, in store order. */
  function Cells(apps: seq<JobApplication>): (r: seq<seq<string>>)
    ensures |r| == |apps|
    ensures forall i :: 0 <= i < |apps| ==> r[i] == Fields(apps[i])
  {
    seq(|apps|, i requires 0 <= i < |apps| => Fields(apps[i]))
  }

  /** Each row is one line that splits back into its cells, when no free-text cell holds
      a separator. */
  lemma RowsParse(apps: seq<JobApplication>)
    requires forall i :: 0 <= i < |apps| ==> SeparatorFreeText(apps[i])
    ensures forall i :: 0 <= i < |apps| ==>
              '\n' !in Rows(apps)[i] && Seqs.Split(Rows(apps)[i], ',') == Cells(apps)[i]
  {
    forall i | 0 <= i < |apps|
      ensures '\n' !in Rows(apps)[i] && Seqs.Split(Rows(apps)[i], ',') == Cells(apps)[i]
    {
      RowIsOneLine(apps[i]);
    }
  }

  /** No row of plain applications has a '#'. */
  lemma RowsHaveNoFragmentMark(apps: seq<JobApplication>)
    requires forall i :: 0 <= i < |apps| ==> PlainText(apps[i])
    ensures forall i :: 0 <= i < |apps| ==> '#' !in Rows(apps)[i]
  {
    forall i | 0 <= i < |apps| ensures '#' !in Rows(apps)[i] {
      RowHasNoFragmentMark(apps[i]);
    }
  }

  /** A header line followed by row lines, each free of newlines, reads back as the
      header's cells followed by each row's cells. */
  lemma {:induction false} ParseHeaderAndRows(h: string, hc: seq<string>, rows: seq<string>, rc: seq<seq<string>>)
    requires '\n' !in h && Seqs.Split(h, ',') == hc
    requires |rows| == |rc|
    requires forall i :: 0 <= i < |rows| ==> '\n' !in rows[i] && Seqs.Split(rows[i], ',') == rc[i]
    ensures ParseCsv(Seqs.Join([h] + rows, '\n')) == [hc] + rc
  {
    var lines := [h] + rows;
    var cells := [hc] + rc;
    forall i | 0 <= i < |lines|
      ensures '\n' !in lines[i] && Seqs.Split(lines[i], ',') == cells[i]
    {
      if i > 0 {
        assert lines[i] == rows[i - 1] && cells[i] == rc[i - 1];
      }
    }
    ParseJoinedLines(lines, cells);
  }

  /** When no free-text cell holds a comma or a newline, reading the exported text back
      gives the header and then exactly the cells of each application, in store order. */
  lemma ExportRoundTrip(apps: seq<JobApplication>)
    requires |apps| > 0
    requires forall i :: 0 <= i < |apps| ==> SeparatorFreeText(apps[i])
    ensures ExportCsv(apps).Ok?
    ensures ParseCsv(ExportCsv(apps).value[|DataUriPrefix|..]) == [HeaderFields] + Cells(apps)
  {
    ExportBody(apps);
    HeaderLineParses();
    RowsParse(apps);
    ParseHeaderAndRows(HeaderLine(), HeaderFields, Rows(apps), Cells(apps));
  }

  /** What the download keeps of the link. `encodeURI` leaves '#' as it is, and everything
      from a URL's first '#' on is its fragment, which is not part of the data. */
  function Downloaded(uri: string): (r: string)
    ensures '#' !in uri ==> r == uri
    ensures '#' in uri ==> |r| < |uri| && uri[|r|] == '#'
    ensures |r| <= |uri| && r == uri[..|r|] && '#' !in r
    decreases |uri|
  {
    if |uri| == 0 || uri[0] == '#' then [] else [uri[0]] + Downloaded(uri[1..])
  }

  lemma PrefixHasNoFragmentMark()
    ensures '#' !in DataUriPrefix
  {
  }

  lemma NoFragmentMark(a: string, b: string)
    requires '#' !in a && '#' !in b
    ensures '#' !in a + b
  {
  }

  /** When every free-text cell is plain, the export text has no '#'. */
  lemma ExportHasNoFragmentMark(apps: seq<JobApplication>)
    requires |apps| > 0
    requires forall i :: 0 <= i < |apps| ==> PlainText(apps[i])
    ensures ExportCsv(apps).Ok? && '#' !in ExportCsv(apps).value
  {
    PrefixHasNoFragmentMark();
    HeaderLineParses();
    RowsHaveNoFragmentMark(apps);
    Seqs.NotInJoin(Rows(apps), '\n', '#');
    NoFragmentMark(DataUriPrefix, HeaderLine());
    NoFragmentMark(DataUriPrefix + HeaderLine(), "\n");
    NoFragmentMark(DataUriPrefix + HeaderLine() + "\n", Seqs.Join(Rows(apps), '\n'));
  }

  /** So the download keeps the whole text, and the round trip above is about the file the
      user gets. */
  lemma ExportDownloadsWhole(apps: seq<JobApplication>)
    requires |apps| > 0
    requires forall i :: 0 <= i < |apps| ==> PlainText(apps[i])
    ensures ExportCsv(apps).Ok?
    ensures Downloaded(ExportCsv(apps).value) == ExportCsv(apps).value
  {
    ExportHasNoFragmentMark(apps);
  }

  /** Splitting a join whose first part hides one extra separator yields one piece more. */
  lemma {:induction false} HiddenSeparatorAddsPiece(a: string, b: string, rest: seq<string>)
    requires ',' !in a && ',' !in b && |rest| >= 1
    requires forall i :: 0 <= i < |rest| ==> ',' !in rest[i]
    ensures Seqs.Split(Seqs.Join([a + [','] + b] + rest, ','), ',') == [a, b] + rest
  {
    Seqs.JoinCons(a + [','] + b, rest, ',');
    var tail := Seqs.Join(rest, ',');
    assert (a + [','] + b) + [','] + tail == a + [','] + (b + [','] + tail);
    Seqs.SplitAtFirstSeparator(a, ',', b + [','] + tail);
    Seqs.SplitAtFirstSeparator(b, ',', tail);
    Seqs.SplitJoin(rest, ',');
  }

  /** The known limitation of the unquoted format: a company name with one comma inside
      ("Acme, Inc.") reads back as two cells, so its row has seven cells instead of six. */
  lemma CommaInCompanyNameAddsCell(a: JobApplication, before: string, after: string)
    requires a.companyName == before + [','] + after
    requires ',' !in before && ',' !in after && ',' !in a.role && ',' !in a.appliedDate
    ensures Seqs.Split(Row(a), ',') == [before, after] + Fields(a)[1..]
    ensures |Seqs.Split(Row(a), ',')| == 7
  {
    var f := Fields(a);
    GeneratedCellsArePlain(a);
    assert forall i :: 1 <= i < |f| ==> ',' !in f[i];
    assert f == [before + [','] + after] + f[1..];
    HiddenSeparatorAddsPiece(before, after, f[1..]);
  }

}
