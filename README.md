# LinkedIn company URL finder — a Dafny model

This project models the decision logic of a command-line tool. The tool takes a list of
company names and looks each one up with a web search engine (Bing). From the hits it picks
the most likely LinkedIn organisation page and exports the records as JSON, CSV, Excel, XML
and RSS.

The model covers five pieces:

- **The URL heuristic** (`UtilsSearch`). A URL qualifies when it contains `linkedin.com` anywhere.
  Its part before the first `?`, lower-cased, must also contain `/company/`, `/school/` or
  `/showcase/`.
- **The finder** (`Finder`). It covers:
  - the constructor's normalisation of engine and user agent (`LinkedInFinder`,
    `LinkedInFinderConfig`), which is a class whose config object is updated in place;
  - the fixed query template and the engine dispatch;
  - the two-pass URL selector, written as two loops;
  - the record it returns with status `LinkedIn Found`, `LinkedIn Not Found` or `Error`.

  The search engine is an oracle: a function from the request (query, timeout, user agent)
  to either a failure or the parsed hits. A hit may lack a URL.
- **The runner** (`Runner`). It covers:
  - the defaults-then-override merge of the settings;
  - the company-list filter;
  - the batch loop with its fallback record;
  - parsing and filtering of the output formats;
  - the dispatch to the exporters in a fixed order with fixed file names;
  - `main`'s early exits, as an outcome and an exit status.
- **The exporters** (`Exporters`). Each is a renderer: it states what it hands to its writer.
  - JSON: the record list.
  - CSV: the sorted header and one row per record.
  - Excel: the record list.
  - XML and RSS: the element tree.
  - CSV and Excel skip an empty record list.
- **Support modules**:
  - `Text`: ASCII lower-casing and stripping, substring search, split and join, string order.
  - `Records`: a Python dict as an ordered list of fields.
  - `Optional`: an `Option` type.

Where the source's behaviour is surprising, the model follows the code. Two examples:

- The fallback record of the batch loop uses the query `linkedin <name>`, not the finder's
  `linkedin company <name>`.
- The host test of the heuristic is case-sensitive and also looks at the query string.

Lemmas state both behaviours (`Runner.BatchRecordsAreResolved`,
`UtilsSearch.HostInQueryCounts`, `UtilsSearch.MixedCaseHostFails`).

## Model

Every cited file is under `linkedin-company-url-mass-profile-finder-scraper/src/`.

| member | source | states |
|---|---|---|
| Text.Lower | linkedin-company-url-mass-profile-finder-scraper/src/extractors/utils_search.py:75 | `.lower()` keeps the length and lower-cases every character, position by position |
| Text.LowerOfNoUpper | linkedin-company-url-mass-profile-finder-scraper/src/extractors/linkedin_finder.py:25 | lower-casing a string without capitals gives it back unchanged |
| Text.ContainsIff | linkedin-company-url-mass-profile-finder-scraper/src/extractors/utils_search.py:72 | the `in` substring test holds exactly when the pattern occurs at some index |
| Text.Split | linkedin-company-url-mass-profile-finder-scraper/src/extractors/utils_search.py:75 | `split` always yields at least one piece, and no piece holds the separator |
| Text.JoinSplit | linkedin-company-url-mass-profile-finder-scraper/src/runner.py:139 | joining the pieces of a split with the separator gives back the original string |
| Text.SplitJoin | linkedin-company-url-mass-profile-finder-scraper/src/runner.py:139 | splitting a join of separator-free pieces gives back those pieces |
| Text.Strip | linkedin-company-url-mass-profile-finder-scraper/src/runner.py:58 | `.strip()` leaves no whitespace at either end and never lengthens the string |
| Text.StripIsInfix | linkedin-company-url-mass-profile-finder-scraper/src/runner.py:58 | the stripped string is the original with only whitespace removed at the two ends |
| Text.StripOfStripped | linkedin-company-url-mass-profile-finder-scraper/src/runner.py:58 | stripping a string without surrounding whitespace changes nothing |
| Text.InsertSorted | linkedin-company-url-mass-profile-finder-scraper/src/outputs/exporters.py:32 | inserting a key into a strictly increasing list keeps it strictly increasing and adds exactly that key |
| Text.IncreasingUnique | linkedin-company-url-mass-profile-finder-scraper/src/outputs/exporters.py:32 | two strictly increasing lists with the same elements are equal, so `sorted` of a set has one answer |
| Records.Get | linkedin-company-url-mass-profile-finder-scraper/src/outputs/exporters.py:99 | `dict.get` finds a value exactly when the key is present, and the value found belongs to that key |
| Records.GetDistinct | linkedin-company-url-mass-profile-finder-scraper/src/outputs/exporters.py:99 | in a dict each key is stored once, so looking up the key of any field finds that field's own value |
| UtilsSearch.BeforeFirstQueryUnique | linkedin-company-url-mass-profile-finder-scraper/src/extractors/utils_search.py:75 | a URL has a single part before its first `?` |
| UtilsSearch.PathPart | linkedin-company-url-mass-profile-finder-scraper/src/extractors/utils_search.py:75 | `url.split("?")[0]` is the prefix of the URL up to its first `?`, or the whole URL |
| UtilsSearch.IsProbableLinkedInCompanyUrl | linkedin-company-url-mass-profile-finder-scraper/src/extractors/utils_search.py:68-79 | true iff the URL contains `linkedin.com` and its lower-cased part before the first `?` holds an organisation segment; false whenever the host is missing; total |
| UtilsSearch.QueryKeepsMatch | linkedin-company-url-mass-profile-finder-scraper/src/extractors/utils_search.py:72-79 | appending `?` and a query to a qualifying URL without `?` keeps it qualifying |
| UtilsSearch.SegmentInQueryIgnored | linkedin-company-url-mass-profile-finder-scraper/src/extractors/utils_search.py:75-76 | an organisation segment that appears only after the first `?` does not make a URL qualify |
| UtilsSearch.HostInQueryCounts | linkedin-company-url-mass-profile-finder-scraper/src/extractors/utils_search.py:72-76 | `linkedin.com` only in the query string still passes the host test |
| UtilsSearch.HostNeedsLowerCase | linkedin-company-url-mass-profile-finder-scraper/src/extractors/utils_search.py:72-73 | the host test is case-sensitive: a URL without a lower-case `l` never qualifies |
| UtilsSearch.SegmentCaseIgnored | linkedin-company-url-mass-profile-finder-scraper/src/extractors/utils_search.py:75-76 | any capitalisation of `/company/`, `/school/` or `/showcase/` before the first `?` qualifies, given the host |
| UtilsSearch.MixedCaseHostFails | linkedin-company-url-mass-profile-finder-scraper/src/extractors/utils_search.py:72-73 | `https://www.LinkedIn.com/company/acme` does not qualify |
| Finder.ToRecord | linkedin-company-url-mass-profile-finder-scraper/src/extractors/linkedin_finder.py:95-100 | the returned dict has exactly the four distinct keys in insertion order `companyName`, `searchQuery`, `linkedinUrl`, `infoStatus`, holding the name, the query, the URL or `None`, and the status text |
| Finder.Normalise | linkedin-company-url-mass-profile-finder-scraper/src/extractors/linkedin_finder.py:19-30 | the engine lower-cases to `bing`; any spelling of `bing` is kept and anything else becomes `bing`; the timeout is kept; an empty user agent becomes the default and a non-empty one is kept |
| Finder.BuildSearchQuery | linkedin-company-url-mass-profile-finder-scraper/src/extractors/linkedin_finder.py:32-36 | the query is `linkedin company ` followed by the name, which can be read back from it |
| Finder.QueryDeterminesName | linkedin-company-url-mass-profile-finder-scraper/src/extractors/linkedin_finder.py:36 | different names give different queries |
| Finder.ProfileShapedIsOnLinkedIn | linkedin-company-url-mass-profile-finder-scraper/src/extractors/linkedin_finder.py:54-64 | every hit the first pass accepts would also be accepted by the second |
| Finder.FirstUrl | linkedin-company-url-mass-profile-finder-scraper/src/extractors/linkedin_finder.py:54-64 | one pass gives none iff no hit is accepted, and otherwise the URL of the first accepted hit |
| Finder.FirstUrlAt | linkedin-company-url-mass-profile-finder-scraper/src/extractors/linkedin_finder.py:54-64 | a pass returns the URL of the first hit it accepts |
| Finder.SelectUrl | linkedin-company-url-mass-profile-finder-scraper/src/extractors/linkedin_finder.py:50-66 | a selected URL is non-empty, contains `linkedin.com` and is one of the hits' URLs; none iff no hit has a non-empty URL containing `linkedin.com` |
| Finder.SelectPrefersProfile | linkedin-company-url-mass-profile-finder-scraper/src/extractors/linkedin_finder.py:54-59 | the first profile-shaped URL is chosen, even when a plain LinkedIn URL comes earlier |
| Finder.SelectFallsBack | linkedin-company-url-mass-profile-finder-scraper/src/extractors/linkedin_finder.py:61-64 | without a profile-shaped URL, the first URL containing `linkedin.com` is chosen |
| Finder.Resolve | linkedin-company-url-mass-profile-finder-scraper/src/extractors/linkedin_finder.py:80-100 | the record has the input name and the built query; `Found` iff a URL is present; a failed search gives `Error` and no URL; otherwise the URL is the selector's and the status is not `Error` |
| Finder.ResolveErrorIffEngineFails | linkedin-company-url-mass-profile-finder-scraper/src/extractors/linkedin_finder.py:83-93 | on normalised settings the status is `Error` exactly when the engine's request failed |
| Finder.LinkedInFinderConfig.constructor | linkedin-company-url-mass-profile-finder-scraper/src/extractors/linkedin_finder.py:7-11 | the dataclass stores the three values, with the defaults `bing`, 10 and the bot user agent |
| Finder.LinkedInFinder.constructor | linkedin-company-url-mass-profile-finder-scraper/src/extractors/linkedin_finder.py:19-30 | the new config holds the normalised settings, and its engine is one `_search` accepts |
| Finder.LinkedInFinder.Search | linkedin-company-url-mass-profile-finder-scraper/src/extractors/linkedin_finder.py:38-48 | `_search` dispatches as `SearchFor`; on a constructed finder it never raises the unsupported-engine error |
| Finder.LinkedInFinder.SelectLinkedInUrl | linkedin-company-url-mass-profile-finder-scraper/src/extractors/linkedin_finder.py:50-66 | the two loops with early return compute exactly `SelectUrl` |
| Finder.LinkedInFinder.FindCompanyProfile | linkedin-company-url-mass-profile-finder-scraper/src/extractors/linkedin_finder.py:68-100 | the record is `Resolve` of the finder's settings, with the input name and built query, consistent, and `Error` exactly when the engine failed |
| Exporters.InsertKeys | linkedin-company-url-mass-profile-finder-scraper/src/outputs/exporters.py:32 | adding one record's keys keeps the header strictly increasing and adds exactly that record's keys |
| Exporters.CsvHeader | linkedin-company-url-mass-profile-finder-scraper/src/outputs/exporters.py:32 | the header is strictly increasing, so it has no duplicates, and holds exactly the keys of all records |
| Exporters.CsvHeaderIsSortedKeySet | linkedin-company-url-mass-profile-finder-scraper/src/outputs/exporters.py:32 | any strictly increasing list of exactly the records' keys is the header |
| Exporters.DictRowCells | linkedin-company-url-mass-profile-finder-scraper/src/outputs/exporters.py:36-38 | in a row `writerow` accepts, the column of each key of the record holds that key's value as text, and every column the record lacks holds `""` |
| Exporters.ExportJson | linkedin-company-url-mass-profile-finder-scraper/src/outputs/exporters.py:15-23 | the JSON export is always written, even for no records, and holds the whole record list unchanged |
| Exporters.ExportCsv | linkedin-company-url-mass-profile-finder-scraper/src/outputs/exporters.py:25-42 | nothing is written iff there are no records; otherwise the table has the sorted key header and one row per record, in order |
| Exporters.ExportExcel | linkedin-company-url-mass-profile-finder-scraper/src/outputs/exporters.py:44-57 | nothing is written iff there are no records; otherwise the sheet is built from all records |
| Exporters.BuildXmlTree | linkedin-company-url-mass-profile-finder-scraper/src/outputs/exporters.py:59-75 | the root is `companies` with one `company` per record, in order; each has one child per key, in key order, with text `""` for `None` and the value otherwise |
| Exporters.ItemTitle | linkedin-company-url-mass-profile-finder-scraper/src/outputs/exporters.py:98-100 | the item title is the company name when truthy, else `Unknown Company`; never empty |
| Exporters.ItemLink | linkedin-company-url-mass-profile-finder-scraper/src/outputs/exporters.py:102-107 | the item link is the LinkedIn URL when truthy, else `https://www.linkedin.com/`; never empty |
| Exporters.ItemDescription | linkedin-company-url-mass-profile-finder-scraper/src/outputs/exporters.py:109-112 | the item description starts with `Status: ` |
| Exporters.BuildItem | linkedin-company-url-mass-profile-finder-scraper/src/outputs/exporters.py:96-112 | the `item` holds title, link and description, in that order |
| Exporters.BuildChannel | linkedin-company-url-mass-profile-finder-scraper/src/outputs/exporters.py:84-93 | the `channel` starts with the fixed title, link and description elements, in that order, independent of the records |
| Exporters.RssFeedOfItems | linkedin-company-url-mass-profile-finder-scraper/src/outputs/exporters.py:83-96 | a `channel` of the fixed head followed by one item per record, in order, inside an `rss` 2.0 root, is the feed of those records |
| Exporters.BuildRssFeed | linkedin-company-url-mass-profile-finder-scraper/src/outputs/exporters.py:77-120 | an `rss` version 2.0 root with one `channel`; the channel has the fixed title, link and description, then one `item` per record, in order |
| Runner.LoadSettings | linkedin-company-url-mass-profile-finder-scraper/src/runner.py:22-48 | every default key is present; a missing, unparsable or non-object config gives exactly the defaults; an object's keys override the defaults and add new keys, and other defaults stay |
| Runner.EachAppend | linkedin-company-url-mass-profile-finder-scraper/src/runner.py:57-58 | mapping over a concatenation is the concatenation of the mappings |
| Runner.KeepNames | linkedin-company-url-mass-profile-finder-scraper/src/runner.py:59-61 | the filter never lengthens the list |
| Runner.KeepNamesOne | linkedin-company-url-mass-profile-finder-scraper/src/runner.py:59-61 | one name is kept iff it is non-empty and does not start with `#` |
| Runner.KeepNamesAppend | linkedin-company-url-mass-profile-finder-scraper/src/runner.py:57-61 | filtering a concatenation filters each part, keeping the order |
| Runner.KeepNamesMembers | linkedin-company-url-mass-profile-finder-scraper/src/runner.py:59-61 | the names kept are exactly the input names that are non-empty and not comments |
| Runner.KeepNamesOfKept | linkedin-company-url-mass-profile-finder-scraper/src/runner.py:59-61 | a list with nothing to drop passes unchanged |
| Runner.KeptNamesOne | linkedin-company-url-mass-profile-finder-scraper/src/runner.py:58-61 | one line contributes its stripped text iff that is non-empty and not a comment |
| Runner.KeptNamesSnoc | linkedin-company-url-mass-profile-finder-scraper/src/runner.py:57-61 | one more line appends its stripped text to the list when it is kept, and nothing otherwise |
| Runner.KeptNamesAppend | linkedin-company-url-mass-profile-finder-scraper/src/runner.py:57-61 | the company list of concatenated files is the concatenation of their lists |
| Runner.KeptNamesStep | linkedin-company-url-mass-profile-finder-scraper/src/runner.py:57-61 | one loop iteration appends the stripped name exactly when it is kept |
| Runner.KeptNamesOfClean | linkedin-company-url-mass-profile-finder-scraper/src/runner.py:57-61 | a list of clean names reads back unchanged |
| Runner.KeptNamesIdempotent | linkedin-company-url-mass-profile-finder-scraper/src/runner.py:57-61 | every kept name is non-empty, stripped and not a comment, and filtering the result again changes nothing |
| Runner.ReadCompanyList | linkedin-company-url-mass-profile-finder-scraper/src/runner.py:50-71 | the loop returns the stripped lines minus blanks and `#` comments, in order; each name is clean |
| Runner.FallbackProfile | linkedin-company-url-mass-profile-finder-scraper/src/runner.py:86-91 | the fallback record keeps the company name, has no URL and status `Error` (so it is consistent), and its query is `linkedin <name>`, which differs from the finder's query |
| Runner.CollectResults | linkedin-company-url-mass-profile-finder-scraper/src/runner.py:73-93 | one record per company, in input order, with no deduplication; the finder's record when it returns, else the `Error` fallback with query `linkedin <name>` |
| Runner.BatchRecordsAreResolved | linkedin-company-url-mass-profile-finder-scraper/src/runner.py:80-93 | with the real finder each record carries its company, the finder's query and a consistent status, and is never the fallback |
| Runner.ValidFormatIsNamed | linkedin-company-url-mass-profile-finder-scraper/src/runner.py:143 | each of the five valid names is the name of one exported format |
| Runner.ExportsMatchRequest | linkedin-company-url-mass-profile-finder-scraper/src/runner.py:143-188 | every valid format that was asked for gets a file, and every file written is of a format that was asked for |
| Runner.ParseFormats | linkedin-company-url-mass-profile-finder-scraper/src/runner.py:138-139 | every parsed format is non-empty, stripped, lower-case and free of commas |
| Runner.CleanPiecesMembers | linkedin-company-url-mass-profile-finder-scraper/src/runner.py:139 | a format is kept exactly when it is the stripped, lower-cased form of a piece that is not blank after stripping |
| Runner.CleanPiecesOne | linkedin-company-url-mass-profile-finder-scraper/src/runner.py:139 | a single piece gives its stripped, lower-cased text, or nothing when it is blank |
| Runner.CleanPiecesAppend | linkedin-company-url-mass-profile-finder-scraper/src/runner.py:139 | the comprehension keeps the order of the pieces: it distributes over concatenation |
| Runner.ParseFormatsOnePiece | linkedin-company-url-mass-profile-finder-scraper/src/runner.py:138-139 | an argument without a comma is one piece, parsed alone |
| Runner.ParseFormatsFirstPiece | linkedin-company-url-mass-profile-finder-scraper/src/runner.py:138-139 | the first comma separates what the first piece gives from the parse of the rest, in that order |
| Runner.ParseFormatsBlankPiece | linkedin-company-url-mass-profile-finder-scraper/src/runner.py:138-139 | an empty piece between two commas asks for nothing |
| Runner.ParseFormatsExample | linkedin-company-url-mass-profile-finder-scraper/src/runner.py:138-139 | ` JSON ,,csv` asks for `json` then `csv`: padding is stripped, capitals lowered, the blank piece dropped |
| Runner.ConfiguredFormats | linkedin-company-url-mass-profile-finder-scraper/src/runner.py:141 | `[f.lower() for f in value]` succeeds exactly for a list of strings, a string or an object; the k-th format is the lower-cased k-th item, character or key, so the count is kept and every format is lower-case |
| Runner.RequestedFormats | linkedin-company-url-mass-profile-finder-scraper/src/runner.py:138-141 | a non-empty `--formats` wins and is parsed; otherwise the configured `output_formats` is used, `["json"]` when the key is absent; every requested format is lower-case |
| Runner.CommaNotIntroduced | linkedin-company-url-mass-profile-finder-scraper/src/runner.py:139 | stripping and lower-casing a comma-free piece leaves it comma-free |
| Runner.CleanPiecesFrom | linkedin-company-url-mass-profile-finder-scraper/src/runner.py:139 | comma-free pieces give formats that are non-empty, stripped, lower-case and comma-free |
| Runner.CleanPiecesOfClean | linkedin-company-url-mass-profile-finder-scraper/src/runner.py:139 | already-clean pieces pass unchanged |
| Runner.ParseFormatsRoundTrip | linkedin-company-url-mass-profile-finder-scraper/src/runner.py:139 | parsing the comma-joined list of clean, comma-free formats gives back that list |
| Runner.LowerItems | linkedin-company-url-mass-profile-finder-scraper/src/runner.py:141 | lower-casing a configured list succeeds iff every item is a string, giving their lower-case forms in order |
| Runner.LowerChars | linkedin-company-url-mass-profile-finder-scraper/src/runner.py:141 | a configured string is iterated character by character, each lower-cased |
| Runner.ValidFormats | linkedin-company-url-mass-profile-finder-scraper/src/runner.py:151 | the filter never lengthens the list |
| Runner.ValidFormatsMembers | linkedin-company-url-mass-profile-finder-scraper/src/runner.py:143-151 | the formats kept are exactly the requested ones among json, csv, excel, xml and rss |
| Runner.ValidFormatsAppend | linkedin-company-url-mass-profile-finder-scraper/src/runner.py:151 | the filter keeps relative order: it distributes over concatenation |
| Runner.PlanAdd | linkedin-company-url-mass-profile-finder-scraper/src/runner.py:173-188 | running a requested format's exporter after the lower-ranked ones extends the plan by that format |
| Runner.PlanSkip | linkedin-company-url-mass-profile-finder-scraper/src/runner.py:173-188 | skipping a format that was not requested extends the plan past it |
| Runner.ExportIfRequested | linkedin-company-url-mass-profile-finder-scraper/src/runner.py:174-188 | one `if "<format>" in output_formats` step runs that format's exporter under its fixed file name exactly when requested |
| Runner.ExportAll | linkedin-company-url-mass-profile-finder-scraper/src/runner.py:173-188 | exports run in the order json, csv, excel, xml, rss, each at most once and exactly for the requested formats, under `linkedin_company_urls` and the format's extension, each holding that exporter's rendering |
| Runner.FinderArgs | linkedin-company-url-mass-profile-finder-scraper/src/runner.py:160-164 | arguments are given exactly when the engine is a string, the timeout an integer and the user agent a string or falsy; they are then the settings' values, or the defaults when absent, a falsy user agent reaching the finder as empty |
| Runner.DefaultFinderArgs | linkedin-company-url-mass-profile-finder-scraper/src/runner.py:160-164 | the default settings give the finder `bing`, a 10-second timeout and the bot's user agent |
| Runner.RunBatch | linkedin-company-url-mass-profile-finder-scraper/src/runner.py:161-188 | each company's record is `Resolve` under the finder's normalised settings, in order, and the exports follow the plan |
| Runner.RunMain | linkedin-company-url-mass-profile-finder-scraper/src/runner.py:125-190 | no valid format stops before any lookup; no company stops before the finder is built; settings the finder cannot take end in `Crashed`; exit status 0 iff formats, companies and settings are usable, and then the records and exports are as the batch states |
| Runner.FeedItemOfProfile | linkedin-company-url-mass-profile-finder-scraper/src/outputs/exporters.py:98-112 | for a finder record, the feed item's title is the name or `Unknown Company`, its link the URL or LinkedIn's home page, and its description `Status: <status>. Query: <query>` |

## Left out

- `search_bing`: the HTTP request and the HTML parsing are not modelled. The engine is an oracle that returns the parsed hits or fails; a failure stands for any exception the search raises.
- File input: the config file arrives as a value (missing, unparsable, not an object, or an object) and the input file as its lines. Read errors other than those cases, and decoding, are left out.
- The `input_file` and `output_dir` settings and the `--input` and `--output-dir` arguments only choose paths, so they are not modelled. `os.makedirs`, `_ensure_dir` and `os.path.join` are left out too; each export carries only its file name.
- Output bytes: `json.dump` indentation, CSV quoting, pandas' column order and `to_excel`, and `ElementTree.write` serialisation and escaping are left out. Each exporter is modelled by the value it hands to its writer. Write errors (`OSError`) are left out.
- Element trees are values built by appending children. `SubElement`'s in-place parent update and its aliasing are not modelled.
- `argparse`, `logging`, the `sys.path` setup and `sys.exit`: the arguments are parameters, log calls are dropped, and exiting is an outcome with an exit status.
- Lower-casing and stripping are ASCII only: Unicode case mapping and Unicode whitespace are not modelled.
- Settings are a map, so the insertion order of the merged dict is not modelled. The order is never observed by the runner.
- JSON values in the settings are null, booleans, integers, strings, lists, and objects reduced to their keys. Floats, and values nested inside an object, are not modelled.
- Record values are strings or `None`, the only kinds the finder produces. `str()` of other Python values in the XML and RSS exporters is not modelled.
- Runner.FinderArgs: the timeout is carried only as an integer. A `null` timeout, a timeout of another type, or a truthy non-string user agent gives no arguments. Python instead builds the finder and hands the value to `requests`.
- Runner.RunMain: for those settings it reports `Crashed`, where Python does not crash. With `"request_timeout": null`, `requests` waits without a limit, the lookups go on as usual and the program exits 0. With a timeout or user agent that `requests` refuses, each lookup ends in `Error`, the records are exported and the program exits 0. Exceptions from unusable `output_formats` values are modelled as `Crashed`, as Python raises them.
- Runner.CollectResults: in `main` the finder is the total `Resolve`, so the fallback record cannot occur there. An unexpected exception inside `find_company_profile`, outside its own `try`, is not modelled.
- Exporters.ItemDescription: its own contract only states the `Status: ` prefix. The exact text for finder records is stated by `Runner.FeedItemOfProfile`.
- Runner.ParseFormats: its own contract states only that every format is clean and comma-free. Which formats come out, and in what order, is stated by `Runner.ParseFormatsOnePiece`, `Runner.ParseFormatsFirstPiece` and `Runner.CleanPiecesMembers`.
- Runner.KeepNames: its own contract only bounds the length. Content and order are stated by `Runner.KeepNamesMembers` and `Runner.KeepNamesAppend`.
- Runner.ValidFormats: its own contract only bounds the length. Content and order are stated by `Runner.ValidFormatsMembers` and `Runner.ValidFormatsAppend`.
- The stray `thon` text at the start of each source file is a copy artefact and is ignored.
