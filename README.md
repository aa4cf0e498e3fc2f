# Airtable RSS feed, modelled in Dafny

This project models the core of a small web service. The service pulls the
records of configured Airtable tables (its "sources") and republishes them as
one combined RSS 2.0 feed at `/rss-all.xml`. Two parts of `app.py` are modelled:

- the record fetcher `fetch_records`: it builds the request URL of a table and
  its optional view. It then requests pages, each later one with
  `&offset=<cursor>`, until a page comes back without a cursor, and
  concatenates their `records`. A refused page (status other than 200) makes
  it return `[]`.
- the handler `rss_all`: without a token it replies 500. Otherwise it fetches
  every registered source in order, writes two debug lines per source, stamps
  each record with its section and extends one aggregate list. It then builds a
  channel whose description embeds the debug text, with one item per record.

Modules, one per component:

- `Wrappers` (`wrappers.dfy`): `Option`.
- `Text` (`text.dfy`): `join`, `split` and `str(int)` as Dafny functions.
- `Seqs` (`seqs.dfy`): `Flatten`, the repeated `list.extend`.
- `Config` (`config.dfy`): the base id, the source registry, Python truthiness.
- `Fetcher` (`fetcher.dfy`): the fetch loop and its specification.
- `Feed` (`feed.dfy`): the handler, the debug log, item rendering, the RSS datatypes.

The network is a script: a sequence of exchanges, where the k-th request the
fetcher issues gets the k-th exchange. An exchange is either an HTTP response
or an exception raised by `requests.get`. A response carries a status and what
`response.json()` gives: a body with optional `records` and `offset`, or a
decoding exception. `FetchRecords` is a method with the source's `while True`
loop. It returns the fetch outcome and the log of the requests it issued (URL
and Authorization header). It is proved against declarative functions:
`FirstStop` (the index of the exchange that ends the loop), `Collected` (the
pages' records in order) and `FetchResult`. `RssAll` calls `FetchAll` (the
source loop) and `RenderItems` (the item loop). It is proved against `FeedOf`,
`DebugLines`, `Aggregated` and `AllRequests`, and lemmas state what those
functions promise. The token, the registry, the scripts and the clock are
parameters. The clock is `clock: nat -> string`: the source calls
`datetime.utcnow()` once per item, so item i gets reading `clock(i)`.

Behaviour kept as the code has it:

- `dict.get(k, default)` (app.py:84, 87, 88, 91) uses the default only when the
  key is absent. A present but empty "A Idea" gives the title `"[section] "`.
  `TitleFallback`, `WhyItWorksFallback` and `PubDateFallback` state this for
  each field.
- Without a truthy view the base URL has no `?`. The `&offset=` of later
  requests is therefore appended to the path (`NoViewNoQuery`). The registry
  entries without a view are commented out in `app.py`, so the active
  configuration never reaches this case.
- The loop ends on an empty cursor as well as on a missing one. It also ends on
  any non-200 status, which discards the records already gathered
  (`FetchRefused`).

Behaviour of `app.py` a reader might not expect:

- A source that answers with a status other than 200 does not raise
  (app.py:40-42). `fetch_records` returns `[]`, so the debug line reads
  "Fetched 0 records from '…'" (app.py:65) and names no failure
  (`RefusedSourceIsolated`). Only an exception produces the "Error fetching"
  line (app.py:69-70). The exception comes from a transport error or from a
  body that is not JSON.
- The 500 reply for a missing token (app.py:53) sets no content type. The model
  leaves it to the framework default (`mimetype == None`).
- `BASE_ID` is taken from `app.py:14` (`appW2SWPgF4UpXNlX`). The comment on
  line 12 spells it differently (`…UpXNIX`).

## Model

| member | source | states |
|---|---|---|
| `Fetcher.TableUrl` | app.py:29-31 | The base URL of a table, with `?view=` only for a truthy view. Its properties are stated by `Fetcher.NoViewNoQuery`, `Feed.RegistryRequests` and the URL clauses of `Fetcher.FetchRecords` |
| `Fetcher.Bearer` | app.py:32 | The Authorization header value. `Fetcher.FetchRecords` and `Feed.AllRequestsAuthorized` state that every request carries it |
| `Fetcher.FetchRecords` | app.py:28-48 | The loop issues `FirstStop + 1` requests, all with header `Bearer <token>`. The first goes to the table URL. Request k goes to the table URL plus `&offset=` and the cursor of page k-1. The outcome is `FetchResult(script)` |
| `Fetcher.FirstStop` | app.py:35-47 | The loop ends at the first exchange that raised, was refused, or carried no truthy cursor. Every earlier exchange hands on a cursor |
| `Fetcher.CollectedAppend` | app.py:44 | Records gathered over two runs of pages are the first run's followed by the second's (`extend` keeps page order) |
| `Fetcher.FetchSucceeds` | app.py:43-48 | When the last page is a 200 JSON page, the result is the concatenation of every fetched page's records, the last page's included. A page without `records` adds none |
| `Fetcher.FetchRefused` | app.py:40-42 | A page with status other than 200 makes the result the empty list, whatever earlier pages gathered |
| `Fetcher.FetchRaises` | app.py:39-43 | A transport exception, or a 200 body that is not JSON, escapes the fetcher as an exception |
| `Fetcher.FetchIgnoresRest` | app.py:35-47 | Exchanges after the one that ends the loop are never requested. They change neither the result nor the request log |
| `Fetcher.NoViewNoQuery` | app.py:29-38 | For a table without `?`, the base URL contains `?` exactly when the view is truthy. Without a view, `&offset=<cursor>` leaves the URL without any query |
| `Fetcher.TwoPages` | app.py:34-48 | With cursor "p2" on page 1 and none on page 2, exactly two requests are made, the second with `&offset=p2`. The result is page 1's records followed by page 2's |
| `Feed.TagSection` | app.py:66-67 | Every record gets `section` equal to the source name. Count, order and fields are unchanged |
| `Feed.RenderItems` | app.py:80-91 | Exactly one item per aggregated record, in the same order. Item i is rendered from record i with clock reading i |
| `Feed.FetchAll` | app.py:58-70 | The source loop yields `DebugLines`, `Aggregated` and `AllRequests` of the registry and the fetch outcomes, in registry order |
| `Feed.RssAll` | app.py:51-94 | Without a truthy token: status 500, body "Error: Airtable token not set", no request. Otherwise: status 200, `application/rss+xml`, the document `FeedOf(sources, outcomes, clock)`, and the requests of every source in order |
| `Feed.AggregatedAppend` | app.py:58-68 | The aggregate over two runs of sources is the first run's aggregate followed by the second's |
| `Feed.AggregatedAround` | app.py:58-68 | The aggregate is, in order: the sources before i, then source i's contribution, then the sources after i |
| `Feed.RaisedSourceSkipped` | app.py:63-70 | A source whose fetch raised adds no records, and the sources after it are still aggregated |
| `Feed.AggregatedSections` | app.py:66-68 | Every aggregated record has a section, and that section is the name of a registered source |
| `Feed.AllRequestsAuthorized` | app.py:32-39 | Every outbound request of a handled request carries `Bearer <token>` |
| `Feed.FetchingLine` | app.py:61 | The first debug line of a source. `Feed.DebugLinesAt` places it at line 2i, and `Feed.DebugTextLines` keeps it one line of the debug text |
| `Feed.FetchedLine` | app.py:65 | The record-count debug line. `Feed.DebugLinesAt` places it at line 2i+1 for a fetch that returned, and `Feed.RefusedSourceIsolated` shows it for a refused source |
| `Feed.ErrorLine` | app.py:70 | The debug line of a fetch that raised. `Feed.DebugLinesAt` places it at line 2i+1 |
| `Feed.DebugText` | app.py:72 | The joined debug lines, or "No debug info". `Feed.DebugTextLines` states both cases |
| `Feed.ChannelDescription` | app.py:78 | The channel description around the debug text. `Feed.RssAll` states the document that embeds it |
| `Feed.DebugLinesAt` | app.py:61-70 | Two debug lines per source in registry order. Line 2i is the "Fetching section" line of source i. Line 2i+1 is its "Fetched N records" line (N the record count) or its "Error fetching" line |
| `Feed.DebugTextLines` | app.py:72-78 | With no source the debug text is "No debug info". Otherwise, when no part holds a line break, splitting the debug text on `\n` gives back exactly the debug lines |
| `Feed.ItemTitle` | app.py:83-85 | The item title. `Feed.TitleFallback` and `Feed.TitleNamesSection` state its properties |
| `Feed.ItemDescription` | app.py:86-89 | The item description. `Feed.WhyItWorksFallback`, `Feed.PubDateFallback` and `Feed.DescriptionLines` state its properties |
| `Feed.PubDate` | app.py:91 | The item pubDate. `Feed.PubDateFallback` and `Feed.RenderingIgnoresClockButPubDate` state its properties |
| `Feed.TitleFallback` | app.py:83-85 | The title is `[section] ` plus "A Idea" when that key is present (even if empty), and plus "Untitled" only when it is absent |
| `Feed.PubDateFallback` | app.py:86-91 | With "Created" present, pubDate is that value and the description's Created line shows it. Without it, pubDate is the clock reading plus "Z" and the description says "N/A" |
| `Feed.WhyItWorksFallback` | app.py:86-87 | The description opens with "Why it works: " and the stored value when that key is present, even if empty, and with "Why it works: N/A" only when it is absent |
| `Feed.DescriptionLines` | app.py:86-90 | The description is exactly two lines, "Why it works: …" and "Created: …", readable back when the values hold no line break |
| `Feed.TitleNamesSection` | app.py:83-85 | The title starts with `[`, and the text up to the first `]` is the record's section when the section holds no `]` |
| `Feed.RenderingIgnoresClockButPubDate` | app.py:80-91 | Two renderings with different clocks agree on the item count, every title, every description, and every pubDate of a record that has "Created" |
| `Feed.NothingFetchedNoItems` | app.py:74-91 | When every source yields no records or raises, the feed has no items but keeps its fixed title and link |
| `Feed.RefusedSourceIsolated` | app.py:40-70 | A first source refused with 500 and a second with ten records give ten aggregated records, all of the second section. The first source's debug line reads "Fetched 0 records" |
| `Feed.RegistryRequests` | app.py:18-31 | Every active registry entry has a truthy view, so its base URL contains `?` and later pages' `&offset=` extends a query |
| `Text.NatToString` | app.py:65 | `str(len(records))` is a non-empty string of decimal digits with no leading zero, except "0" itself |
| `Text.ParseNatToString` | app.py:65 | The decimal rendering of the record count loses nothing: parsing it gives back the count |
| `Text.Join` | app.py:72 | `"\n".join(lines)`. `Text.SplitJoin` states that splitting gives the lines back |
| `Text.SplitJoin` | app.py:72 | `"\n".join(lines)` split on `\n` gives back the lines when none holds a line break |

## Left out

- Flask, routing, `Response` objects and `app.run` (app.py:1, 7, 50, 96-97) are framework plumbing. The reply is a datatype. The 500 reply's content type is the framework's default and is not modelled.
- `requests.get` and `response.json()` (app.py:39, 43): the network is a script of exchanges served in request order. Responses do not depend on the URL asked for. The percent-encoding that `requests` applies to URLs (the view "API Full" holds a space) is not modelled.
- `Fetcher.FetchRecords`: requires that the script contains an exchange that ends the loop. An upstream that returns cursors forever makes the Python loop run forever, and a terminating method cannot represent that.
- The `print` of a refused page and its `response.text` (app.py:41) are log output only.
- `xml.etree.ElementTree` tree building and `ET.tostring` (app.py:74-93): the document is a datatype. XML escaping and serialisation are not modelled.
- `datetime.utcnow().isoformat()` (app.py:91) is a clock parameter. That the fallback timestamp is valid ISO-8601 and no earlier than the request start is not modelled.
- `os.environ` (app.py:10): the token is an optional string parameter of `RssAll`.
- Exception types and their texts (app.py:63-70) are abstract strings. No other code path inside the loop is assumed to raise.
- Field values are strings. JSON numbers, lists or attachments that Python would render with `str()` are not modelled.
- A record without a `fields` key makes `record['fields']` (app.py:81) raise outside any handler. The model's records always have fields. A `records` value of JSON `null` (which `extend` rejects) and record ids are not modelled either.
- `Feed.TagSection`: the source mutates each record dict in place. The model builds the stamped copies as values. No aliasing arises: each dict comes fresh from JSON decoding and appears once.
