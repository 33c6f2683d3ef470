/** The CSV export of the results panel: the summary rows, a blank line, the
    breakdown header and one quoted-name row per breakdown entry, joined by
    newlines behind a byte-order mark.  Number-to-text conversion and the
    translated labels are parameters. */
module Csv {
  import opened Numbers
  import opened Types

  /** `fields.join(sep)`: the fields with one separator between each two. */
  function Join(fields: seq<string>, sep: char): (r: string)
    ensures fields == [] ==> r == ""
    ensures fields != [] ==> fields[0] <= r
    ensures |fields| > 1 ==> |r| > |fields[0]| && r[|fields[0]|] == sep
    decreases |fields|
  {
    if fields == [] then ""
    else if |fields| == 1 then fields[0]
    else fields[0] + [sep] + Join(fields[1..], sep)
  }

  lemma JoinTwo(a: string, b: string, sep: char)
    ensures Join([a, b], sep) == a + [sep] + b
  {
    assert [a, b][1..] == [b];
  }

  lemma JoinThree(a: string, b: string, c: string, sep: char)
    ensures Join([a, b, c], sep) == a + [sep] + b + [sep] + c
  {
    assert [a, b, c][1..] == [b, c];
    JoinTwo(b, c, sep);
  }

  /** `s.split(sep)`: the pieces between the separators; the empty text is
      one empty piece. */
  function Split(s: string, sep: char): (r: seq<string>)
    ensures |r| > 0
    decreases |s|
  {
    if s == [] then [""]
    else
      var rest := Split(s[1..], sep);
      if s[0] == sep then [""] + rest
      else [[s[0]] + rest[0]] + rest[1..]
  }

  /** Text without the character `c`. */
  predicate Avoids(s: string, c: char) {
    forall i :: 0 <= i < |s| ==> s[i] != c
  }

  /** Splitting text whose first piece `a` holds no separator. */
  lemma {:induction false} SplitAfterPiece(a: string, t: string, sep: char)
    requires Avoids(a, sep)
    ensures Split(a + [sep] + t, sep) == [a] + Split(t, sep)
    decreases |a|
  {
    if a == [] {
      assert a + [sep] + t == [sep] + t;
      assert ([sep] + t)[1..] == t;
    } else {
      var s := a + [sep] + t;
      assert s[0] == a[0];
      assert s[1..] == a[1..] + [sep] + t;
      SplitAfterPiece(a[1..], t, sep);
      assert [a[0]] + a[1..] == a;
    }
  }

  /** Splitting text that holds no separator gives it back whole. */
  lemma {:induction false} SplitPiece(a: string, sep: char)
    requires Avoids(a, sep)
    ensures Split(a, sep) == [a]
    decreases |a|
  {
    if a != [] {
      SplitPiece(a[1..], sep);
      assert [a[0]] + a[1..] == a;
    }
  }

  /** Splitting undoes joining when no field holds the separator. */
  lemma {:induction false} SplitJoin(fields: seq<string>, sep: char)
    requires |fields| > 0
    requires forall i :: 0 <= i < |fields| ==> Avoids(fields[i], sep)
    ensures Split(Join(fields, sep), sep) == fields
    decreases |fields|
  {
    if |fields| == 1 {
      SplitPiece(fields[0], sep);
    } else {
      var rest := fields[1..];
      assert forall i :: 0 <= i < |rest| ==> rest[i] == fields[i + 1];
      SplitJoin(rest, sep);
      SplitAfterPiece(fields[0], Join(rest, sep), sep);
      assert [fields[0]] + rest == fields;
    }
  }

  /** Joining fields that lack `c` with a separator other than `c` gives
      text that lacks `c`. */
  lemma {:induction false} JoinAvoids(fields: seq<string>, sep: char, c: char)
    requires sep != c
    requires forall i :: 0 <= i < |fields| ==> Avoids(fields[i], c)
    ensures Avoids(Join(fields, sep), c)
    decreases |fields|
  {
    if |fields| > 1 {
      var rest := fields[1..];
      assert forall i :: 0 <= i < |rest| ==> rest[i] == fields[i + 1];
      JoinAvoids(rest, sep, c);
      var s := fields[0] + [sep] + Join(rest, sep);
      forall i | 0 <= i < |s|
        ensures s[i] != c
      {
        if i > |fields[0]| {
          assert s[i] == Join(rest, sep)[i - |fields[0]| - 1];
        }
      }
    }
  }

  /** `s.replace(/"/g, '""')`: every double quote doubled.  The ensures
      only keeps the recursion's lengths in view; the exact length is
      `EscapeLength`, and what escaping is for is `ReadEscaped`. */
  function Escape(s: string): (r: string)
    ensures |r| >= |s|
    decreases |s|
  {
    if s == [] then ""
    else (if s[0] == '"' then "\"\"" else [s[0]]) + Escape(s[1..])
  }

  /** Escaping lengthens the text by exactly one character per quote. */
  lemma {:induction false} EscapeLength(s: string)
    ensures |Escape(s)| == |s| + multiset(s)['"']
    decreases |s|
  {
    if s != [] {
      EscapeLength(s[1..]);
      assert s == [s[0]] + s[1..];
    }
  }

  /** The name cell of a breakdown row: the escaped name between quotes. */
  function QuoteName(name: string): (r: string)
    ensures |r| >= 2 && r[0] == '"' && r[|r| - 1] == '"'
    ensures ReadQuoted(r) == Some((name, ""))
  {
    ReadEscaped(name, "");
    var r := "\"" + Escape(name) + "\"";
    assert r[1..] == Escape(name) + "\"" + "";
    r
  }

  /** Reads a quoted cell after its opening quote, the way a CSV reader
      does: a doubled quote stands for one quote and a single quote closes
      the cell.  Gives the cell's text and what follows the closing quote. */
  function ReadQuotedBody(s: string): Option<(string, string)>
    decreases |s|
  {
    if s == [] then None
    else if s[0] == '"' && |s| > 1 && s[1] == '"' then
      match ReadQuotedBody(s[2..])
      case None => None
      case Some(cell) => Some(("\"" + cell.0, cell.1))
    else if s[0] == '"' then Some(("", s[1..]))
    else
      match ReadQuotedBody(s[1..])
      case None => None
      case Some(cell) => Some(([s[0]] + cell.0, cell.1))
  }

  /** Reads the quoted cell at the start of a line. */
  function ReadQuoted(line: string): Option<(string, string)> {
    if |line| > 0 && line[0] == '"' then ReadQuotedBody(line[1..]) else None
  }

  lemma {:induction false} ReadEscaped(name: string, rest: string)
    requires rest == [] || rest[0] != '"'
    ensures ReadQuotedBody(Escape(name) + "\"" + rest) == Some((name, rest))
    decreases |name|
  {
    var s := Escape(name) + "\"" + rest;
    if name == [] {
      assert s == "\"" + rest;
      assert s[1..] == rest;
    } else if name[0] == '"' {
      assert s == "\"\"" + (Escape(name[1..]) + "\"" + rest);
      assert s[2..] == Escape(name[1..]) + "\"" + rest;
      ReadEscaped(name[1..], rest);
      assert "\"" + name[1..] == name;
    } else {
      assert s == [name[0]] + (Escape(name[1..]) + "\"" + rest);
      assert s[1..] == Escape(name[1..]) + "\"" + rest;
      ReadEscaped(name[1..], rest);
      assert [name[0]] + name[1..] == name;
    }
  }

  /** Reading back a quoted name recovers the name, whatever quotes and
      commas it holds, and leaves the rest of the line (which starts with
      the column separator) untouched. */
  lemma QuoteNameRoundTrip(name: string, rest: string)
    requires rest == [] || rest[0] != '"'
    ensures ReadQuoted(QuoteName(name) + rest) == Some((name, rest))
  {
    var line := QuoteName(name) + rest;
    assert line[1..] == Escape(name) + "\"" + rest;
    ReadEscaped(name, rest);
  }

  /** Escaping adds no character other than quotes. */
  lemma {:induction false} EscapeAvoids(s: string, c: char)
    requires c != '"' && Avoids(s, c)
    ensures Avoids(Escape(s), c)
    decreases |s|
  {
    if s != [] {
      EscapeAvoids(s[1..], c);
      var head := if s[0] == '"' then "\"\"" else [s[0]];
      var e := head + Escape(s[1..]);
      forall i | 0 <= i < |e|
        ensures e[i] != c
      {
        if i >= |head| {
          assert e[i] == Escape(s[1..])[i - |head|];
        }
      }
    }
  }

  /** The translated labels the export uses. */
  datatype Labels = Labels(
    resultsTitle: string,
    totalFactoryCost: string,
    totalShippingAndCustomsCost: string,
    perUnitGrossProfit: string,
    totalGrossProfit: string,
    totalGrossMargin: string,
    productNameLabel: string,
    factoryCost: string,
    unitSalePrice: string)

  /** `summaryRows`, each row as its cells; `num` turns a number into text. */
  function SummaryRows(res: CalculationResults, labels: Labels, num: real -> string): seq<seq<string>> {
    [ [labels.resultsTitle],
      [],
      [labels.totalFactoryCost, num(res.totalFactoryCostUSD)],
      [labels.totalShippingAndCustomsCost, num(res.shippingAndCustomsCostUSD)],
      [labels.perUnitGrossProfit, num(res.perUnitGrossProfitUSD)],
      [labels.totalGrossProfit, num(res.grossProfitUSD)],
      [labels.totalGrossMargin, num(res.totalGrossMarginUSD)],
      [labels.totalGrossMargin + " (%)", num(res.costIncreaseRate)] ]
  }

  function BreakdownHeader(labels: Labels): seq<string> {
    [labels.productNameLabel, labels.factoryCost, labels.unitSalePrice]
  }

  function BreakdownRow(item: BreakdownItem, num: real -> string): seq<string> {
    [QuoteName(item.name), num(item.factoryPrice), num(item.finalSalePrice)]
  }

  /** The summary rows, each joined by commas. */
  function SummaryLines(res: CalculationResults, labels: Labels, num: real -> string): seq<string> {
    var summary := SummaryRows(res, labels, num);
    seq(|summary|, i requires 0 <= i < |summary| => Join(summary[i], ','))
  }

  /** `breakdownRows.map(e => e.join(","))`. */
  function BreakdownLines(items: seq<BreakdownItem>, num: real -> string): seq<string> {
    seq(|items|, i requires 0 <= i < |items| => Join(BreakdownRow(items[i], num), ','))
  }

  /** The lines of `csvContent` before they are joined. */
  function CsvLines(res: CalculationResults, labels: Labels, num: real -> string): (r: seq<string>)
    ensures |r| == 10 + |res.productBreakdown|
    ensures r[0] == labels.resultsTitle && r[1] == "" && r[8] == ""
  {
    SummaryLines(res, labels, num) + ["", Join(BreakdownHeader(labels), ',')]
      + BreakdownLines(res.productBreakdown, num)
  }

  /** The head of the export: eight summary lines in their fixed order
      (title, blank, factory cost, shipping and customs, per-unit profit,
      gross profit, margin, margin percentage), a blank line and the
      three-column header. */
  lemma CsvHead(res: CalculationResults, labels: Labels, num: real -> string)
    ensures var lines := CsvLines(res, labels, num);
      && |lines| == 10 + |res.productBreakdown|
      && lines[..10] == [
           labels.resultsTitle,
           "",
           labels.totalFactoryCost + "," + num(res.totalFactoryCostUSD),
           labels.totalShippingAndCustomsCost + "," + num(res.shippingAndCustomsCostUSD),
           labels.perUnitGrossProfit + "," + num(res.perUnitGrossProfitUSD),
           labels.totalGrossProfit + "," + num(res.grossProfitUSD),
           labels.totalGrossMargin + "," + num(res.totalGrossMarginUSD),
           labels.totalGrossMargin + " (%)," + num(res.costIncreaseRate),
           "",
           labels.productNameLabel + "," + labels.factoryCost + "," + labels.unitSalePrice]
  {
    var lines := CsvLines(res, labels, num);
    JoinTwo(labels.totalFactoryCost, num(res.totalFactoryCostUSD), ',');
    JoinTwo(labels.totalShippingAndCustomsCost, num(res.shippingAndCustomsCostUSD), ',');
    JoinTwo(labels.perUnitGrossProfit, num(res.perUnitGrossProfitUSD), ',');
    JoinTwo(labels.totalGrossProfit, num(res.grossProfitUSD), ',');
    JoinTwo(labels.totalGrossMargin, num(res.totalGrossMarginUSD), ',');
    JoinTwo(labels.totalGrossMargin + " (%)", num(res.costIncreaseRate), ',');
    JoinThree(labels.productNameLabel, labels.factoryCost, labels.unitSalePrice, ',');
    assert (labels.totalGrossMargin + " (%)") + "," == labels.totalGrossMargin + " (%),";
    assert lines[..10] == SummaryLines(res, labels, num) + ["", Join(BreakdownHeader(labels), ',')];
  }

  /** The body of the export: exactly one line per breakdown entry, in
      breakdown order, that starts with the quoted name. */
  lemma CsvBody(res: CalculationResults, labels: Labels, num: real -> string)
    ensures var lines := CsvLines(res, labels, num);
      && |lines| == 10 + |res.productBreakdown|
      && forall i :: 0 <= i < |res.productBreakdown| ==>
           lines[10 + i] == QuoteName(res.productBreakdown[i].name) + ","
             + num(res.productBreakdown[i].factoryPrice) + "," + num(res.productBreakdown[i].finalSalePrice)
  {
    var lines := CsvLines(res, labels, num);
    var items := res.productBreakdown;
    forall i | 0 <= i < |items|
      ensures lines[10 + i] == QuoteName(items[i].name) + "," + num(items[i].factoryPrice) + "," + num(items[i].finalSalePrice)
    {
      assert lines[10 + i] == BreakdownLines(items, num)[i];
      JoinThree(QuoteName(items[i].name), num(items[i].factoryPrice), num(items[i].finalSalePrice), ',');
    }
  }

  /** Each breakdown line read back with a CSV reader gives the product's
      name, whatever it holds, followed by the two price cells. */
  lemma BreakdownLineReadsBack(res: CalculationResults, labels: Labels, num: real -> string, i: nat)
    requires i < |res.productBreakdown|
    ensures var item := res.productBreakdown[i];
      ReadQuoted(CsvLines(res, labels, num)[10 + i])
        == Some((item.name, "," + num(item.factoryPrice) + "," + num(item.finalSalePrice)))
  {
    var item := res.productBreakdown[i];
    CsvBody(res, labels, num);
    var rest := "," + num(item.factoryPrice) + "," + num(item.finalSalePrice);
    assert CsvLines(res, labels, num)[10 + i] == QuoteName(item.name) + rest;
    QuoteNameRoundTrip(item.name, rest);
  }

  /** `handleExportCSV`'s file content: nothing without results, otherwise
      the byte-order mark followed by the lines joined by newlines. */
  function ExportCsv(results: Option<CalculationResults>, labels: Labels, num: real -> string): (out: Option<string>)
    ensures out.None? <==> results.None?
    ensures out.Some? ==> |out.value| > 0 && out.value[0] == '\U{FEFF}'
  {
    if results.None? then None
    else Some("\U{FEFF}" + Join(CsvLines(results.value, labels, num), '\n'))
  }

  /** None of the labels holds a line break. */
  predicate LabelsOnOneLine(labels: Labels) {
    && Avoids(labels.resultsTitle, '\n') && Avoids(labels.totalFactoryCost, '\n')
    && Avoids(labels.totalShippingAndCustomsCost, '\n') && Avoids(labels.perUnitGrossProfit, '\n')
    && Avoids(labels.totalGrossProfit, '\n') && Avoids(labels.totalGrossMargin, '\n')
    && Avoids(labels.productNameLabel, '\n') && Avoids(labels.factoryCost, '\n')
    && Avoids(labels.unitSalePrice, '\n')
  }

  lemma SuffixAvoids(a: string, b: string, c: char)
    requires Avoids(a, c) && Avoids(b, c)
    ensures Avoids(a + b, c)
  {
    forall i | 0 <= i < |a + b|
      ensures (a + b)[i] != c
    {
      if i >= |a| {
        assert (a + b)[i] == b[i - |a|];
      }
    }
  }

  /** Every line of the export is free of line breaks when the labels,
      the product names and the number texts are. */
  lemma LinesOnOneLine(res: CalculationResults, labels: Labels, num: real -> string)
    requires LabelsOnOneLine(labels)
    requires forall x :: Avoids(num(x), '\n')
    requires forall i :: 0 <= i < |res.productBreakdown| ==> Avoids(res.productBreakdown[i].name, '\n')
    ensures forall i :: 0 <= i < |CsvLines(res, labels, num)| ==> Avoids(CsvLines(res, labels, num)[i], '\n')
  {
    var summary := SummaryRows(res, labels, num);
    var items := res.productBreakdown;
    var lines := CsvLines(res, labels, num);
    var head := SummaryLines(res, labels, num);
    var body := BreakdownLines(items, num);
    SuffixAvoids(labels.totalGrossMargin, " (%)", '\n');
    forall k | 0 <= k < |summary|
      ensures Avoids(Join(summary[k], ','), '\n')
    {
      JoinAvoids(summary[k], ',', '\n');
    }
    JoinAvoids(BreakdownHeader(labels), ',', '\n');
    forall k | 0 <= k < |items|
      ensures Avoids(Join(BreakdownRow(items[k], num), ','), '\n')
    {
      EscapeAvoids(items[k].name, '\n');
      SuffixAvoids("\"" + Escape(items[k].name), "\"", '\n');
      SuffixAvoids("\"", Escape(items[k].name), '\n');
      JoinAvoids(BreakdownRow(items[k], num), ',', '\n');
    }
    forall i | 0 <= i < |lines|
      ensures Avoids(lines[i], '\n')
    {
      if i < 8 {
        assert lines[i] == head[i] == Join(summary[i], ',');
      } else if i >= 10 {
        assert lines[i] == body[i - 10] == Join(BreakdownRow(items[i - 10], num), ',');
      }
    }
  }

  /** Splitting the exported text (after the byte-order mark) at its line
      breaks gives back exactly the lines, provided no label, name or
      number text holds a line break. */
  lemma ExportSplitsIntoLines(res: CalculationResults, labels: Labels, num: real -> string)
    requires LabelsOnOneLine(labels)
    requires forall x :: Avoids(num(x), '\n')
    requires forall i :: 0 <= i < |res.productBreakdown| ==> Avoids(res.productBreakdown[i].name, '\n')
    ensures Split(ExportCsv(Some(res), labels, num).value[1..], '\n') == CsvLines(res, labels, num)
  {
    var lines := CsvLines(res, labels, num);
    LinesOnOneLine(res, labels, num);
    assert ("\U{FEFF}" + Join(lines, '\n'))[1..] == Join(lines, '\n');
    SplitJoin(lines, '\n');
  }
}
