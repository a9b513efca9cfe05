/** `_format_forecast` (handlers/weather_module.py:90-107): a title line, a
    blank line, then for every date of the dictionary, in its iteration
    order, five labelled lines and a blank line. Lines are kept as the
    fields they show; the label text, the date and float rendering and the
    capitalisation of the description are not modelled. */
module Formatting {
  import opened Wrappers
  import opened Texts
  import opened Aggregation

  /** One line of the reply, by what it shows. The title line shows the
      city through the language's `title` template. */
  datatype Line<D> =
    | TitleLine(city: string)
    | DateLine(date: D)
    | TempLine(low: real, high: real)
    | DescLine(description: string)
    | HumidityLine(percent: int)
    | WindLine(speed: real)
    | BlankLine

  /** A rendered forecast: its lines and the language whose label table
      renders them. */
  datatype Report<D> = Report(lang: Lang, lines: seq<Line<D>>)

  /** Lines per date: five labelled lines and one blank line. */
  const BlockSize: nat := 6

  /** The lines for one date: it opens with the date and closes with the
      blank separator, and no line between them is a date or a blank line,
      so consecutive blocks cannot run into each other. */
  function Block<D>(date: D, day: Day): (r: seq<Line<D>>)
    ensures |r| == BlockSize
    ensures r[0] == DateLine(date) && r[BlockSize - 1] == BlankLine
    ensures forall j :: 0 < j < BlockSize - 1 ==> !r[j].DateLine? && !r[j].BlankLine?
  {
    [DateLine(date), TempLine(day.tempMin, day.tempMax), DescLine(day.description),
     HumidityLine(day.humidity), WindLine(day.windSpeed), BlankLine]
  }

  /** The blocks for the given dates, in the given order. */
  function Blocks<D(==)>(order: seq<D>, days: map<D, Day>): (r: seq<Line<D>>)
    requires forall k :: 0 <= k < |order| ==> order[k] in days
    ensures |r| == BlockSize * |order|
  {
    if |order| == 0 then []
    else Block(order[0], days[order[0]]) + Blocks(order[1..], days)
  }

  /** The text of the title line for `city`. */
  function TitleText(lang: Lang, city: string): (r: string)
    ensures Unfill(ErrorTexts(lang).title, r) == Some(city)
  {
    UnfillFill(ErrorTexts(lang).title, city);
    Fill(ErrorTexts(lang).title, city)
  }

  /** The whole reply for an aggregated forecast. */
  function FormatForecast<D(==)>(f: Forecasts<D>, city: string, lang: Lang): (r: Report<D>)
    requires Listed(f)
    ensures r.lang == lang
    ensures |r.lines| == 2 + BlockSize * |f.order|
    ensures r.lines[0] == TitleLine(city) && r.lines[1] == BlankLine
  {
    Report(lang, [TitleLine(city), BlankLine] + Blocks(f.order, f.days))
  }

  /** Line `j` of the `k`-th block is line `6k + j` of the block sequence. */
  lemma {:induction false} BlocksLayout<D>(order: seq<D>, days: map<D, Day>, k: nat, j: nat)
    requires forall i :: 0 <= i < |order| ==> order[i] in days
    requires k < |order| && j < BlockSize
    ensures Blocks(order, days)[BlockSize * k + j] == Block(order[k], days[order[k]])[j]
    decreases k
  {
    if k > 0 {
      BlocksLayout(order[1..], days, k - 1, j);
    }
  }

  /** Every date of the dictionary gets its block, in iteration order, after
      the title and the blank line. */
  lemma FormatLayout<D>(f: Forecasts<D>, city: string, lang: Lang, k: nat)
    requires Listed(f)
    requires k < |f.order|
    ensures FormatForecast(f, city, lang).lines[2 + BlockSize * k..2 + BlockSize * k + BlockSize]
         == Block(f.order[k], f.days[f.order[k]])
  {
    var lines := FormatForecast(f, city, lang).lines;
    forall j | 0 <= j < BlockSize
      ensures lines[2 + BlockSize * k + j] == Block(f.order[k], f.days[f.order[k]])[j]
    {
      BlocksLayout(f.order, f.days, k, j);
    }
  }

  /** The date entries a reply should show: every date with its summary, in
      order. */
  function Entries<D(==)>(order: seq<D>, days: map<D, Day>): (r: seq<(D, Day)>)
    requires forall k :: 0 <= k < |order| ==> order[k] in days
    ensures |r| == |order|
    ensures forall k :: 0 <= k < |order| ==> r[k] == (order[k], days[order[k]])
  {
    seq(|order|, k requires 0 <= k < |order| => (order[k], days[order[k]]))
  }

  /** Reads one block back, if the six lines have a block's shape. */
  function ParseBlock<D>(lines: seq<Line<D>>): (r: Option<(D, Day)>)
    requires |lines| == BlockSize
    ensures r.Some? ==> Block(r.value.0, r.value.1) == lines
  {
    if && lines[0].DateLine? && lines[1].TempLine? && lines[2].DescLine?
       && lines[3].HumidityLine? && lines[4].WindLine? && lines[5].BlankLine?
    then
      Some((lines[0].date,
            Day(lines[1].low, lines[1].high, lines[2].description, lines[3].percent, lines[4].speed)))
    else
      None
  }

  /** A block reads back to its own date and summary. */
  lemma ParseBlockOfBlock<D>(date: D, day: Day)
    ensures ParseBlock(Block(date, day)) == Some((date, day))
  {
  }

  /** Reads a sequence of blocks back. */
  function ParseBlocks<D>(lines: seq<Line<D>>): (r: Option<seq<(D, Day)>>)
    ensures r.Some? ==> |lines| == BlockSize * |r.value|
    decreases |lines|
  {
    if |lines| == 0 then Some([])
    else if |lines| < BlockSize then None
    else
      match ParseBlock(lines[..BlockSize])
      case None => None
      case Some(e) =>
        match ParseBlocks(lines[BlockSize..])
        case None => None
        case Some(es) => Some([e] + es)
  }

  /** Reads a reply back into its city and date entries. */
  function ParseReport<D>(r: Report<D>): Option<(string, seq<(D, Day)>)>
  {
    if |r.lines| >= 2 && r.lines[0].TitleLine? && r.lines[1].BlankLine? then
      match ParseBlocks(r.lines[2..])
      case None => None
      case Some(es) => Some((r.lines[0].city, es))
    else
      None
  }

  lemma {:induction false} ParseBlocksOfBlocks<D>(order: seq<D>, days: map<D, Day>)
    requires forall k :: 0 <= k < |order| ==> order[k] in days
    ensures ParseBlocks(Blocks(order, days)) == Some(Entries(order, days))
    decreases |order|
  {
    if |order| > 0 {
      var lines := Blocks(order, days);
      var head := Block(order[0], days[order[0]]);
      assert lines[..BlockSize] == head;
      assert lines[BlockSize..] == Blocks(order[1..], days);
      ParseBlocksOfBlocks(order[1..], days);
      assert Entries(order, days) == [(order[0], days[order[0]])] + Entries(order[1..], days);
    }
  }

  /** The field-level line sequence loses nothing: reading it back yields
      the city and every date's full summary, in the dictionary's order. The
      rendered text is lossier; see the notes on text rendering. */
  lemma FormatRoundTrip<D>(f: Forecasts<D>, city: string, lang: Lang)
    requires Listed(f)
    ensures ParseReport(FormatForecast(f, city, lang)) == Some((city, Entries(f.order, f.days)))
  {
    var r := FormatForecast(f, city, lang);
    assert r.lines[2..] == Blocks(f.order, f.days);
    ParseBlocksOfBlocks(f.order, f.days);
  }

  /** No samples: no dates, and the reply is the title and one blank line,
      i.e. the text `title + "\n\n"`. */
  lemma EmptyForecast<D>(city: string, lang: Lang)
    ensures Aggregate<D>([]).order == []
    ensures Listed(Aggregate<D>([]))
    ensures FormatForecast(Aggregate<D>([]), city, lang).lines == [TitleLine(city), BlankLine]
  {
    AggregateValid<D>([]);
  }

  /** Blocks follow first appearance, not the calendar: a day seen first is
      shown first even when it is the later date, and its repeat only
      widens its temperature range. */
  lemma InsertionOrderNotChronological(city: string, lang: Lang)
    ensures var samples := [
      Sample("2024-06-02", 18.0, 21.0, "light rain", 80, 3.5),
      Sample("2024-06-01", 15.0, 19.0, "clear sky", 60, 2.0),
      Sample("2024-06-02", 16.0, 24.0, "overcast clouds", 70, 4.0)];
      && Listed(Aggregate(samples))
      && var lines := FormatForecast(Aggregate(samples), city, lang).lines;
      && |lines| == 14
      && lines[2..8] == Block("2024-06-02", Day(16.0, 24.0, "light rain", 80, 3.5))
      && lines[8..14] == Block("2024-06-01", Day(15.0, 19.0, "clear sky", 60, 2.0))
  {
    var samples := [
      Sample("2024-06-02", 18.0, 21.0, "light rain", 80, 3.5),
      Sample("2024-06-01", 15.0, 19.0, "clear sky", 60, 2.0),
      Sample("2024-06-02", 16.0, 24.0, "overcast clouds", 70, 4.0)];
    AggregateSnoc([], samples[0]);
    AggregateSnoc(samples[..1], samples[1]);
    AggregateSnoc(samples[..2], samples[2]);
    assert [samples[0]] == samples[..1];
    assert samples[..1] + [samples[1]] == samples[..2];
    assert samples[..2] + [samples[2]] == samples;
    var f := Aggregate(samples);
    assert f.order == ["2024-06-02", "2024-06-01"];
    AggregateValid(samples);
    FormatLayout(f, city, lang, 0);
    FormatLayout(f, city, lang, 1);
  }
}
