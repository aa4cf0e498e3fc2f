/**
 * The feed builder: the `/rss-all.xml` handler. It fetches every registered
 * source in order, stamps each record with its section, logs one debug line
 * per step into the channel description, and renders one RSS item per record.
 * The XML tree is modelled as a datatype, not as serialised text.
 */
module Feed {
  import opened Wrappers
  import opened Text
  import opened Config
  import opened Fetcher
  import opened Seqs

  const ChannelTitle: string := "Idea Engine - All Content RSS Feed (Debug Mode)"
  const ChannelLink: string := "https://airtable-rss-feed.vercel.app/rss-all.xml"
  const Tagline: string := "Live combined feed from Airtable Idea Engine"
  const TokenMissing: string := "Error: Airtable token not set"
  const RssMimetype: string := "application/rss+xml"

  datatype Item = Item(title: string, description: string, pubDate: string)
  datatype Channel = Channel(title: string, link: string, description: string, items: seq<Item>)
  /** The `<rss version=...>` element around its one channel. */
  datatype Rss = Rss(version: string, channel: Channel)
  datatype Body = PlainText(text: string) | Document(rss: Rss)
  /** An HTTP reply; `mimetype` is `None` where the framework's default applies. */
  datatype Reply = Reply(status: int, mimetype: Option<string>, body: Body)

  /** Python's `fields.get(key, default)`: the default only when the key is absent. */
  function Get(fields: map<string, string>, key: string, default: string): string {
    if key in fields then fields[key] else default
  }

  // ---------------------------------------------------------------- debug log

  /** How an f-string renders the optional view: `None` prints as "None". */
  function ViewText(view: Option<string>): string {
    view.GetOr("None")
  }

  function FetchingLine(s: Source): string {
    "Fetching section '" + s.name + "' from table/ID '" + s.table + "' (view: " + ViewText(s.view) + ")"
  }

  function FetchedLine(count: nat, table: string): string {
    "Fetched " + NatToString(count) + " records from '" + table + "'"
  }

  function ErrorLine(table: string, error: string): string {
    "Error fetching '" + table + "': " + error
  }

  /** The second debug line of a source: its record count, or the exception text. */
  function OutcomeLine(s: Source, o: FetchOutcome): string {
    match o
    case Records(rs) => FetchedLine(|rs|, s.table)
    case Raised(e) => ErrorLine(s.table, e)
  }

  /** The two debug lines one source adds. */
  function SourceLines(s: Source, o: FetchOutcome): seq<string> {
    [FetchingLine(s), OutcomeLine(s, o)]
  }

  /** The debug lines of the sources processed so far, in registry order. */
  function DebugLines(sources: seq<Source>, outcomes: seq<FetchOutcome>): seq<string>
    requires |sources| == |outcomes|
  {
    Flatten(seq(|sources|, i requires 0 <= i < |sources| => SourceLines(sources[i], outcomes[i])))
  }

  function DebugText(lines: seq<string>): string {
    if lines == [] then "No debug info" else Join(lines, "\n")
  }

  function ChannelDescription(debugText: string): string {
    "Debug info:\n" + debugText + "\n\n" + Tagline
  }

  // ---------------------------------------------------------------- aggregation

  /** The records of one source with `section` set to its name and nothing else changed. */
  function Stamped(records: seq<Record>, section: string): (tagged: seq<Record>)
  {
    seq(|records|, i requires 0 <= i < |records| => records[i].(section := Some(section)))
  }

  /** What one source adds to the aggregate: its stamped records, or nothing when its fetch raised. */
  function Contribution(s: Source, o: FetchOutcome): seq<Record> {
    match o
    case Records(rs) => Stamped(rs, s.name)
    case Raised(_) => []
  }

  /** The aggregate record list after processing `sources` with these fetch outcomes. */
  function Contributions(sources: seq<Source>, outcomes: seq<FetchOutcome>): seq<seq<Record>>
    requires |sources| == |outcomes|
  {
    seq(|sources|, i requires 0 <= i < |sources| => Contribution(sources[i], outcomes[i]))
  }

  /** The aggregate record list: the sources' contributions in registry order. */
  function Aggregated(sources: seq<Source>, outcomes: seq<FetchOutcome>): seq<Record>
    requires |sources| == |outcomes|
  {
    Flatten(Contributions(sources, outcomes))
  }

  /** The section names of the registry. */
  function SectionNames(sources: seq<Source>): set<string> {
    set s | s in sources :: s.name
  }

  // ---------------------------------------------------------------- items

  function ItemTitle(r: Record): string {
    "[" + r.section.GetOr("Unknown") + "] " + Get(r.fields, "A Idea", "Untitled")
  }

  function ItemDescription(fields: map<string, string>): string {
    "Why it works: " + Get(fields, "Why it works", "N/A") + "\nCreated: " + Get(fields, "Created", "N/A")
  }

  /** `now` is the ISO-8601 reading of the UTC clock taken for this item. */
  function PubDate(fields: map<string, string>, now: string): string {
    Get(fields, "Created", now + "Z")
  }

  function RenderItem(r: Record, now: string): Item {
    Item(ItemTitle(r), ItemDescription(r.fields), PubDate(r.fields, now))
  }

  /** One item per record, in order; `clock(i)` is the clock reading taken while rendering item i. */
  function RenderedItems(records: seq<Record>, clock: nat -> string): seq<Item> {
    seq(|records|, i requires 0 <= i < |records| => RenderItem(records[i], clock(i)))
  }

  // ---------------------------------------------------------------- the request

  /** One network script per source, each of which ends its pagination. */
  predicate Scripted(sources: seq<Source>, scripts: seq<seq<Exchange>>) {
    |scripts| == |sources| && forall i :: 0 <= i < |scripts| ==> EndsPagination(scripts[i])
  }

  /** The fetch outcome of every source. */
  function Outcomes(scripts: seq<seq<Exchange>>): seq<FetchOutcome>
    requires forall i :: 0 <= i < |scripts| ==> EndsPagination(scripts[i])
  {
    seq(|scripts|, i requires 0 <= i < |scripts| => FetchResult(scripts[i]))
  }

  /** Every outbound request of one handled request, source after source. */
  function AllRequests(sources: seq<Source>, scripts: seq<seq<Exchange>>, token: string): seq<Request>
    requires Scripted(sources, scripts)
    decreases |sources|
  {
    if sources == [] then []
    else
      var n := |sources| - 1;
      AllRequests(sources[..n], scripts[..n], token)
        + FetchLog(TableUrl(sources[n].table, sources[n].view), Bearer(token), scripts[n])
  }

  /** The RSS document rendered from the sources' fetch outcomes. */
  function FeedOf(sources: seq<Source>, outcomes: seq<FetchOutcome>, clock: nat -> string): Rss
    requires |sources| == |outcomes|
  {
    Rss("2.0", Channel(ChannelTitle, ChannelLink,
                       ChannelDescription(DebugText(DebugLines(sources, outcomes))),
                       RenderedItems(Aggregated(sources, outcomes), clock)))
  }

  /** Processing source i adds that source's two debug lines. */
  lemma DebugStep(sources: seq<Source>, outcomes: seq<FetchOutcome>, i: nat)
    requires |sources| == |outcomes| && i < |sources|
    ensures DebugLines(sources[..i + 1], outcomes[..i + 1])
      == DebugLines(sources[..i], outcomes[..i]) + [FetchingLine(sources[i])] + [OutcomeLine(sources[i], outcomes[i])]
  {
    var s := sources[i];
    var lines := seq(i, k requires 0 <= k < i => SourceLines(sources[k], outcomes[k]));
    assert seq(i + 1, k requires 0 <= k < i + 1 => SourceLines(sources[..i + 1][k], outcomes[..i + 1][k]))
      == lines + [SourceLines(s, outcomes[i])];
    assert lines == seq(i, k requires 0 <= k < i => SourceLines(sources[..i][k], outcomes[..i][k]));
    FlattenSnoc(lines, SourceLines(s, outcomes[i]));
    assert Flatten(lines) + SourceLines(s, outcomes[i])
      == Flatten(lines) + [FetchingLine(s)] + [OutcomeLine(s, outcomes[i])];
  }

  /** Processing source i appends that source's contribution to the aggregate. */
  lemma AggregateStep(sources: seq<Source>, outcomes: seq<FetchOutcome>, i: nat)
    requires |sources| == |outcomes| && i < |sources|
    ensures Aggregated(sources[..i + 1], outcomes[..i + 1])
      == Aggregated(sources[..i], outcomes[..i]) + Contribution(sources[i], outcomes[i])
  {
    assert Contributions(sources[..i + 1], outcomes[..i + 1])
      == Contributions(sources[..i], outcomes[..i]) + [Contribution(sources[i], outcomes[i])];
    FlattenSnoc(Contributions(sources[..i], outcomes[..i]), Contribution(sources[i], outcomes[i]));
  }

  /** Processing source i appends that source's requests to the log. */
  lemma RequestsStep(sources: seq<Source>, scripts: seq<seq<Exchange>>, i: nat, token: string)
    requires Scripted(sources, scripts) && i < |sources|
    ensures AllRequests(sources[..i + 1], scripts[..i + 1], token)
      == AllRequests(sources[..i], scripts[..i], token)
         + FetchLog(TableUrl(sources[i].table, sources[i].view), Bearer(token), scripts[i])
  {
    assert sources[..i + 1][..i] == sources[..i];
    assert scripts[..i + 1][..i] == scripts[..i];
  }

  /** Stamps every record of one source with the source's name as its section. */
  method TagSection(records: seq<Record>, section: string) returns (tagged: seq<Record>)
    ensures |tagged| == |records|
    ensures forall i :: 0 <= i < |records| ==>
      tagged[i].fields == records[i].fields && tagged[i].section == Some(section)
    ensures tagged == Stamped(records, section)
  {
    tagged := records;
    for i := 0 to |records|
      invariant |tagged| == |records|
      invariant forall k :: 0 <= k < i ==> tagged[k] == records[k].(section := Some(section))
      invariant forall k :: i <= k < |records| ==> tagged[k] == records[k]
    {
      tagged := tagged[i := tagged[i].(section := Some(section))];
    }
  }

  /** The item loop of the handler: one item per aggregated record, in order. */
  method RenderItems(records: seq<Record>, clock: nat -> string) returns (items: seq<Item>)
    ensures |items| == |records|
    ensures forall i :: 0 <= i < |records| ==> items[i] == RenderItem(records[i], clock(i))
  {
    items := [];
    for i := 0 to |records|
      invariant |items| == i
      invariant forall k :: 0 <= k < i ==> items[k] == RenderItem(records[k], clock(k))
    {
      items := items + [RenderItem(records[i], clock(i))];
    }
  }

  /**
   * The source loop of the handler: fetch each source in registry order, log a
   * line before the fetch and one after it, and extend the aggregate with the
   * stamped records of every fetch that did not raise.
   */
  method FetchAll(sources: seq<Source>, scripts: seq<seq<Exchange>>, token: string)
    returns (debugInfo: seq<string>, allRecords: seq<Record>, log: seq<Request>)
    requires Scripted(sources, scripts)
    ensures debugInfo == DebugLines(sources, Outcomes(scripts))
    ensures allRecords == Aggregated(sources, Outcomes(scripts))
    ensures log == AllRequests(sources, scripts, token)
  {
    ghost var outcomes := Outcomes(scripts);
    debugInfo, allRecords, log := [], [], [];
    var i := 0;
    while i < |sources|
      invariant 0 <= i <= |sources|
      invariant debugInfo == DebugLines(sources[..i], outcomes[..i])
      invariant allRecords == Aggregated(sources[..i], outcomes[..i])
      invariant log == AllRequests(sources[..i], scripts[..i], token)
    {
      var source := sources[i];
      debugInfo := debugInfo + [FetchingLine(source)];
      var fetched, requests := FetchRecords(source.table, source.view, token, scripts[i]);
      log := log + requests;
      match fetched {
        case Records(records) =>
          debugInfo := debugInfo + [FetchedLine(|records|, source.table)];
          var tagged := TagSection(records, source.name);
          allRecords := allRecords + tagged;
        case Raised(e) =>
          debugInfo := debugInfo + [ErrorLine(source.table, e)];
      }
      assert fetched == outcomes[i];
      DebugStep(sources, outcomes, i);
      AggregateStep(sources, outcomes, i);
      RequestsStep(sources, scripts, i, token);
      i := i + 1;
    }
    assert sources[..i] == sources && outcomes[..i] == outcomes && scripts[..i] == scripts;
  }

  /**
   * `rss_all()`: without a truthy token, a 500 reply and no request at all;
   * otherwise the feed built from every source's fetch, and the requests made.
   */
  method RssAll(token: Option<string>, sources: seq<Source>, scripts: seq<seq<Exchange>>, clock: nat -> string)
    returns (reply: Reply, log: seq<Request>)
    requires Scripted(sources, scripts)
    ensures !Truthy(token) ==> reply == Reply(500, None, PlainText(TokenMissing)) && log == []
    ensures Truthy(token) ==>
      reply == Reply(200, Some(RssMimetype), Document(FeedOf(sources, Outcomes(scripts), clock)))
    ensures Truthy(token) ==> log == AllRequests(sources, scripts, token.value)
  {
    if !Truthy(token) {
      reply, log := Reply(500, None, PlainText(TokenMissing)), [];
      return;
    }
    var debugInfo, allRecords;
    debugInfo, allRecords, log := FetchAll(sources, scripts, token.value);
    var debugText := DebugText(debugInfo);
    var items := RenderItems(allRecords, clock);
    assert items == RenderedItems(allRecords, clock);
    var channel := Channel(ChannelTitle, ChannelLink, ChannelDescription(debugText), items);
    reply := Reply(200, Some(RssMimetype), Document(Rss("2.0", channel)));
  }

  // ---------------------------------------------------------------- properties

  /** The aggregate of two runs of sources is the first run's aggregate followed by the second's. */
  lemma AggregatedAppend(s1: seq<Source>, o1: seq<FetchOutcome>, s2: seq<Source>, o2: seq<FetchOutcome>)
    requires |s1| == |o1| && |s2| == |o2|
    ensures Aggregated(s1 + s2, o1 + o2) == Aggregated(s1, o1) + Aggregated(s2, o2)
  {
    assert Contributions(s1 + s2, o1 + o2) == Contributions(s1, o1) + Contributions(s2, o2);
    FlattenAppend(Contributions(s1, o1), Contributions(s2, o2));
  }

  /** The aggregate of a single source is its contribution. */
  lemma AggregatedSingle(s: Source, o: FetchOutcome)
    ensures Aggregated([s], [o]) == Contribution(s, o)
  {
    assert Contributions([s], [o]) == [] + [Contribution(s, o)];
    FlattenSnoc<Record>([], Contribution(s, o));
  }

  /** The aggregate splits around source i into what precedes it, its contribution, and what follows. */
  lemma AggregatedAround(sources: seq<Source>, outcomes: seq<FetchOutcome>, i: nat)
    requires |sources| == |outcomes| && i < |sources|
    ensures Aggregated(sources, outcomes)
      == Aggregated(sources[..i], outcomes[..i]) + Contribution(sources[i], outcomes[i])
         + Aggregated(sources[i + 1..], outcomes[i + 1..])
  {
    var pre, post := sources[..i], sources[i + 1..];
    var opre, opost := outcomes[..i], outcomes[i + 1..];
    assert sources == pre + ([sources[i]] + post);
    assert outcomes == opre + ([outcomes[i]] + opost);
    AggregatedAppend(pre, opre, [sources[i]] + post, [outcomes[i]] + opost);
    AggregatedAppend([sources[i]], [outcomes[i]], post, opost);
    AggregatedSingle(sources[i], outcomes[i]);
  }

  /** A source whose fetch raised adds nothing, and the sources after it are still aggregated. */
  lemma RaisedSourceSkipped(sources: seq<Source>, outcomes: seq<FetchOutcome>, i: nat)
    requires |sources| == |outcomes| && i < |sources| && outcomes[i].Raised?
    ensures Aggregated(sources, outcomes)
      == Aggregated(sources[..i], outcomes[..i]) + Aggregated(sources[i + 1..], outcomes[i + 1..])
  {
    AggregatedAround(sources, outcomes, i);
    assert Contribution(sources[i], outcomes[i]) == [];
  }

  /** Every aggregated record carries the section name of one of the sources. */
  lemma AggregatedSections(sources: seq<Source>, outcomes: seq<FetchOutcome>)
    requires |sources| == |outcomes|
    ensures forall j :: 0 <= j < |Aggregated(sources, outcomes)| ==>
      Aggregated(sources, outcomes)[j].section.Some?
      && Aggregated(sources, outcomes)[j].section.value in SectionNames(sources)
  {
    var names := SectionNames(sources);
    var parts := Contributions(sources, outcomes);
    var p := (r: Record) => r.section.Some? && r.section.value in names;
    forall i, k | 0 <= i < |parts| && 0 <= k < |parts[i]| ensures p(parts[i][k]) {
      assert sources[i] in sources;
    }
    FlattenAll(parts, p);
  }

  /** Every outbound request of a handled request carries the configured token as a bearer credential. */
  lemma {:induction false} AllRequestsAuthorized(sources: seq<Source>, scripts: seq<seq<Exchange>>, token: string)
    requires Scripted(sources, scripts)
    ensures forall k :: 0 <= k < |AllRequests(sources, scripts, token)| ==>
      AllRequests(sources, scripts, token)[k].authorization == "Bearer " + token
    decreases |sources|
  {
    if sources != [] {
      var n := |sources| - 1;
      AllRequestsAuthorized(sources[..n], scripts[..n], token);
      var front := AllRequests(sources[..n], scripts[..n], token);
      var last := FetchLog(TableUrl(sources[n].table, sources[n].view), Bearer(token), scripts[n]);
      var all := AllRequests(sources, scripts, token);
      assert all == front + last;
      forall k | 0 <= k < |all| ensures all[k].authorization == "Bearer " + token {
        if k < |front| {
          assert all[k] == front[k];
        } else {
          assert all[k] == last[k - |front|];
        }
      }
    } else {
      assert AllRequests(sources, scripts, token) == [];
    }
  }

  /** Two debug lines per source: the "Fetching" line, then the count or the error. */
  lemma DebugLinesAt(sources: seq<Source>, outcomes: seq<FetchOutcome>)
    requires |sources| == |outcomes|
    ensures |DebugLines(sources, outcomes)| == 2 * |sources|
    ensures forall i :: 0 <= i < |sources| ==>
      DebugLines(sources, outcomes)[2 * i] == FetchingLine(sources[i])
      && DebugLines(sources, outcomes)[2 * i + 1] == OutcomeLine(sources[i], outcomes[i])
  {
    var parts := seq(|sources|, i requires 0 <= i < |sources| => SourceLines(sources[i], outcomes[i]));
    FlattenPairs(parts);
    forall i | 0 <= i < |sources|
      ensures parts[i][0] == FetchingLine(sources[i]) && parts[i][1] == OutcomeLine(sources[i], outcomes[i])
    {
    }
  }

  /** The line separator does not occur in a debug line built from separator-free parts. */
  lemma LineFree(s: Source, o: FetchOutcome)
    requires '\n' !in s.name && '\n' !in s.table && '\n' !in ViewText(s.view)
    requires o.Raised? ==> '\n' !in o.error
    ensures '\n' !in FetchingLine(s) && '\n' !in OutcomeLine(s, o)
  {
  }

  /**
   * With at least one source, each debug entry is exactly one line of the debug text;
   * with none, the text is "No debug info".
   */
  lemma DebugTextLines(sources: seq<Source>, outcomes: seq<FetchOutcome>)
    requires |sources| == |outcomes|
    requires forall i :: 0 <= i < |sources| ==>
      '\n' !in sources[i].name && '\n' !in sources[i].table && '\n' !in ViewText(sources[i].view)
    requires forall i :: 0 <= i < |outcomes| && outcomes[i].Raised? ==> '\n' !in outcomes[i].error
    ensures sources == [] ==> DebugText(DebugLines(sources, outcomes)) == "No debug info"
    ensures sources != [] ==>
      Split(DebugText(DebugLines(sources, outcomes)), '\n') == DebugLines(sources, outcomes)
  {
    var lines := DebugLines(sources, outcomes);
    DebugLinesAt(sources, outcomes);
    if sources != [] {
      forall k | 0 <= k < |lines| ensures '\n' !in lines[k] {
        LineFree(sources[k / 2], outcomes[k / 2]);
        assert k == 2 * (k / 2) || k == 2 * (k / 2) + 1;
      }
      SplitJoin(lines, '\n');
    }
  }

  /** The title falls back to "Untitled" only when "A Idea" is absent; a present value, even empty, is kept. */
  lemma TitleFallback(r: Record, now: string)
    ensures var title := RenderItem(r, now).title; var sec := r.section.GetOr("Unknown");
      && ("A Idea" in r.fields ==> title == "[" + sec + "] " + r.fields["A Idea"])
      && ("A Idea" !in r.fields ==> title == "[" + sec + "] Untitled")
  {
  }

  /**
   * The pubDate is the record's own "Created" value, which the description's
   * "Created" line also shows; without one it is the clock reading plus "Z"
   * while the description says "N/A".
   */
  lemma PubDateFallback(r: Record, now: string)
    ensures var it := RenderItem(r, now);
      && ("Created" in r.fields ==>
            it.pubDate == r.fields["Created"] && Get(r.fields, "Created", "N/A") == it.pubDate)
      && ("Created" !in r.fields ==>
            it.pubDate == now + "Z" && Get(r.fields, "Created", "N/A") == "N/A")
  {
  }

  /** The description is two lines whose values can be read back when they hold no line break. */
  lemma DescriptionLines(r: Record, now: string)
    requires '\n' !in Get(r.fields, "Why it works", "N/A") && '\n' !in Get(r.fields, "Created", "N/A")
    ensures Split(RenderItem(r, now).description, '\n')
      == ["Why it works: " + Get(r.fields, "Why it works", "N/A"), "Created: " + Get(r.fields, "Created", "N/A")]
  {
    var why := "Why it works: " + Get(r.fields, "Why it works", "N/A");
    var created := "Created: " + Get(r.fields, "Created", "N/A");
    assert '\n' !in why && '\n' !in created;
    assert ItemDescription(r.fields) == Join([why, created], "\n");
    SplitJoin([why, created], '\n');
  }

  /** The title opens with the record's section in brackets, which can be read back when it holds no ']'. */
  lemma TitleNamesSection(r: Record, now: string)
    requires ']' !in r.section.GetOr("Unknown")
    ensures var title := RenderItem(r, now).title;
      |title| >= 1 && title[0] == '[' && Split(title[1..], ']')[0] == r.section.GetOr("Unknown")
  {
    var sec := r.section.GetOr("Unknown");
    var rest := " " + Get(r.fields, "A Idea", "Untitled");
    assert ItemTitle(r)[1..] == sec + [']'] + rest;
    SplitHead(sec, ']', rest);
  }

  /** Rendering twice with different clocks changes nothing but the fallback pubDates. */
  lemma RenderingIgnoresClockButPubDate(records: seq<Record>, clock1: nat -> string, clock2: nat -> string)
    ensures var a := RenderedItems(records, clock1); var b := RenderedItems(records, clock2);
      |a| == |b| == |records|
      && forall i :: 0 <= i < |records| ==>
           a[i].title == b[i].title && a[i].description == b[i].description
           && ("Created" in records[i].fields ==> a[i].pubDate == b[i].pubDate)
  {
    var a := RenderedItems(records, clock1);
    var b := RenderedItems(records, clock2);
    forall i | 0 <= i < |records|
      ensures a[i].title == b[i].title && a[i].description == b[i].description
      ensures "Created" in records[i].fields ==> a[i].pubDate == b[i].pubDate
    {
      assert a[i] == RenderItem(records[i], clock1(i));
      assert b[i] == RenderItem(records[i], clock2(i));
    }
  }

  /** Sources that all yield nothing give a feed with no items but the fixed channel metadata. */
  lemma NothingFetchedNoItems(sources: seq<Source>, outcomes: seq<FetchOutcome>, clock: nat -> string)
    requires |sources| == |outcomes|
    requires forall i :: 0 <= i < |outcomes| ==> outcomes[i] == Records([]) || outcomes[i].Raised?
    ensures Aggregated(sources, outcomes) == []
    ensures var ch := FeedOf(sources, outcomes, clock).channel;
      ch.items == [] && ch.title == ChannelTitle && ch.link == ChannelLink
  {
    var parts := Contributions(sources, outcomes);
    forall i | 0 <= i < |parts| ensures parts[i] == [] {
      assert parts[i] == Contribution(sources[i], outcomes[i]);
    }
    FlattenEmpty(parts);
  }

  /**
   * A refused first source and a second source of ten records: ten items, all of
   * the second section; the first source's debug line reports zero records, not an error.
   */
  lemma RefusedSourceIsolated(a: Source, b: Source, body: Payload, tens: seq<Record>)
    requires |tens| == 10
    ensures var scripts := [[Response(500, body)], [Response(200, Json(Some(tens), None))]];
      && Scripted([a, b], scripts)
      && |Aggregated([a, b], Outcomes(scripts))| == 10
      && (forall j :: 0 <= j < 10 ==> Aggregated([a, b], Outcomes(scripts))[j].section == Some(b.name))
      && |DebugLines([a, b], Outcomes(scripts))| == 4
      && DebugLines([a, b], Outcomes(scripts))[1] == FetchedLine(0, a.table)
      && DebugLines([a, b], Outcomes(scripts))[3] == FetchedLine(10, b.table)
  {
    var s1 := [Response(500, body)];
    var s2 := [Response(200, Json(Some(tens), None))];
    var scripts := [s1, s2];
    assert Stops(s1[0]) && Stops(s2[0]);
    assert FirstStop(s1) == 0 && FirstStop(s2) == 0;
    assert s2[..0] == [];
    var os := Outcomes(scripts);
    assert os[0] == Records([]);
    assert os[1] == Records(tens);
    assert Contributions([a, b], os) == [[]] + [Stamped(tens, b.name)];
    FlattenSnoc([[]], Stamped(tens, b.name));
    FlattenSnoc<Record>([], []);
    assert Aggregated([a, b], os) == Stamped(tens, b.name);
    assert [a, b][..1] == [a] && os[..1] == [os[0]];
    DebugLinesAt([a, b], os);
  }

  /**
   * Every configured source names a view, so its base URL already carries a query
   * and the `&offset=` of later pages extends that query.
   */
  lemma RegistryRequests()
    ensures forall i :: 0 <= i < |Registry| ==>
      Truthy(Registry[i].view) && '?' in TableUrl(Registry[i].table, Registry[i].view)
  {
    var s := Registry[0];
    var prefix := ApiRoot + BaseId + "/" + s.table;
    assert TableUrl(s.table, s.view) == prefix + "?view=" + s.view.value;
    assert TableUrl(s.table, s.view)[|prefix|] == '?';
  }

  /**
   * The first description line falls back to "N/A" only when "Why it works" is
   * absent; a present value, even empty, is shown as it is.
   */
  lemma WhyItWorksFallback(fields: map<string, string>)
    ensures "Why it works" in fields ==>
      "Why it works: " + fields["Why it works"] + "\n" <= ItemDescription(fields)
    ensures "Why it works" !in fields ==> "Why it works: N/A\n" <= ItemDescription(fields)
  {
  }
}
