/**
 * The command-line runner: settings with defaults, the company list, the
 * batch loop, the choice of output formats and the dispatch to the
 * exporters. Files, the network and argument parsing are outside: the
 * runner receives the parsed config file, the lines of the input file, the
 * `--formats` argument and the search engine.
 */
module Runner {
  import opened Optional
  import opened Text
  import opened Records
  import opened Finder
  import opened Exporters

  // ---------------------------------------------------------------------------
  // Settings

  /** A JSON value as a setting; of a nested object only its keys, in order, matter here. */
  datatype Setting =
    | SNull
    | SBool(b: bool)
    | SNumber(n: int)
    | SStr(s: string)
    | SList(items: seq<Setting>)
    | SObject(keys: seq<string>)

  /** What reading the config file gives: no file, no JSON, JSON that is not an object, or an object. */
  datatype ConfigFile = Missing | Unparsable | NotAnObject | Object(entries: map<string, Setting>)

  function Defaults(): map<string, Setting> {
    map[ "search_engine" := SStr(DefaultEngine),
         "request_timeout" := SNumber(10),
         "user_agent" := SStr(DefaultUserAgent),
         "output_formats" := SList([SStr("json")]),
         "input_file" := SStr("data/company_list.sample.txt"),
         "output_dir" := SStr("data") ]
  }

  /**
   * `load_settings`: the defaults, overridden and extended by the keys of
   * the config object; exactly the defaults when there is no usable object.
   */
  method LoadSettings(file: ConfigFile) returns (settings: map<string, Setting>)
    ensures Defaults().Keys <= settings.Keys
    ensures !file.Object? ==> settings == Defaults()
    ensures file.Object? ==> settings.Keys == Defaults().Keys + file.entries.Keys
    ensures file.Object? ==> forall k :: k in file.entries ==> settings[k] == file.entries[k]
    ensures file.Object? ==> forall k :: k in Defaults() && k !in file.entries ==> settings[k] == Defaults()[k]
  {
    settings := Defaults();
    if file.Object? {
      settings := settings + file.entries;
    }
  }

  /** `settings.get(key, fallback)`. */
  function SettingOr(settings: map<string, Setting>, key: string, fallback: Setting): Setting {
    if key in settings then settings[key] else fallback
  }

  // ---------------------------------------------------------------------------
  // The company list

  /** A line is kept when, stripped, it is neither empty nor a `#` comment. */
  predicate Kept(name: string) {
    name != [] && name[0] != '#'
  }

  predicate CleanName(name: string) {
    Kept(name) && Stripped(name)
  }

  /** `f` applied to every element, in order. */
  function Each(f: string -> string, xs: seq<string>): (ys: seq<string>)
    ensures |ys| == |xs|
    ensures forall i :: 0 <= i < |xs| ==> ys[i] == f(xs[i])
  {
    seq(|xs|, i requires 0 <= i < |xs| => f(xs[i]))
  }

  /** The names that pass `Kept`, in order. */
  function KeepNames(names: seq<string>): (kept: seq<string>)
    ensures |kept| <= |names|
    decreases |names|
  {
    if names == [] then []
    else (if Kept(names[0]) then [names[0]] else []) + KeepNames(names[1..])
  }

  /** The names `read_company_list` returns for these lines. */
  function KeptNames(lines: seq<string>): seq<string> {
    KeepNames(Each(Strip, lines))
  }

  /** `read_company_list` on the lines of the file: strip, skip blanks and comments, keep order. */
  method ReadCompanyList(lines: seq<string>) returns (companies: seq<string>)
    ensures companies == KeptNames(lines)
    ensures forall c :: c in companies ==> CleanName(c)
  {
    companies := [];
    for i := 0 to |lines|
      invariant companies == KeptNames(lines[..i])
    {
      var name := Strip(lines[i]);
      KeptNamesStep(lines, i, name);
      if name == [] || name[0] == '#' {
        continue;
      }
      companies := companies + [name];
    }
    assert lines[..|lines|] == lines;
    KeptNamesIdempotent(lines);
  }

  lemma {:induction false} KeepNamesAppend(a: seq<string>, b: seq<string>)
    ensures KeepNames(a + b) == KeepNames(a) + KeepNames(b)
    decreases |a|
  {
    if a == [] {
      assert a + b == b;
    } else {
      KeepNamesAppend(a[1..], b);
      assert (a + b)[1..] == a[1..] + b;
      assert (a + b)[0] == a[0];
      var h, x, y := if Kept(a[0]) then [a[0]] else [], KeepNames(a[1..]), KeepNames(b);
      assert KeepNames(a + b) == h + (x + y);
      assert KeepNames(a) == h + x;
      assert h + (x + y) == (h + x) + y;
    }
  }

  lemma EachAppend(f: string -> string, a: seq<string>, b: seq<string>)
    ensures Each(f, a + b) == Each(f, a) + Each(f, b)
  {
    var l, r := Each(f, a + b), Each(f, a) + Each(f, b);
    forall i | 0 <= i < |l| ensures l[i] == r[i] {
      if i < |a| {
        assert (a + b)[i] == a[i];
      } else {
        assert (a + b)[i] == b[i - |a|];
      }
    }
  }

  lemma KeptNamesStep(lines: seq<string>, i: int, name: string)
    requires 0 <= i < |lines| && name == Strip(lines[i])
    ensures Kept(name) ==> KeptNames(lines[..i + 1]) == KeptNames(lines[..i]) + [name]
    ensures !Kept(name) ==> KeptNames(lines[..i + 1]) == KeptNames(lines[..i])
  {
    assert lines[..i + 1] == lines[..i] + [lines[i]];
    KeptNamesSnoc(lines[..i], lines[i]);
  }

  /** One more line adds its stripped form when that is kept. */
  lemma KeptNamesSnoc(prefix: seq<string>, line: string)
    ensures KeptNames(prefix + [line]) == KeptNames(prefix) + if Kept(Strip(line)) then [Strip(line)] else []
  {
    KeptNamesAppend(prefix, [line]);
    KeptNamesOne(line);
  }

  lemma KeptNamesOne(line: string)
    ensures KeptNames([line]) == if Kept(Strip(line)) then [Strip(line)] else []
  {
    var name := Strip(line);
    assert Each(Strip, [line]) == [name];
    KeepNamesOne(name);
  }

  lemma KeepNamesOne(name: string)
    ensures KeepNames([name]) == if Kept(name) then [name] else []
  {
    assert [name][1..] == [];
  }

  /** The names kept are exactly the given names that pass `Kept`. */
  lemma {:induction false} KeepNamesMembers(names: seq<string>)
    ensures forall c :: c in KeepNames(names) <==> c in names && Kept(c)
    decreases |names|
  {
    if names != [] {
      KeepNamesMembers(names[1..]);
      assert names == [names[0]] + names[1..];
    }
  }

  /** Reading commutes with concatenation: the names of two files read one after the other, in order. */
  lemma KeptNamesAppend(a: seq<string>, b: seq<string>)
    ensures KeptNames(a + b) == KeptNames(a) + KeptNames(b)
  {
    EachAppend(Strip, a, b);
    KeepNamesAppend(Each(Strip, a), Each(Strip, b));
  }

  lemma {:induction false} KeepNamesOfKept(names: seq<string>)
    requires forall c :: c in names ==> Kept(c)
    ensures KeepNames(names) == names
    decreases |names|
  {
    if names != [] {
      assert forall c :: c in names[1..] ==> c in names;
      KeepNamesOfKept(names[1..]);
      assert names[0] in names;
      assert [names[0]] + names[1..] == names;
    }
  }

  /** A list of clean names reads back as itself. */
  lemma KeptNamesOfClean(names: seq<string>)
    requires forall c :: c in names ==> CleanName(c)
    ensures KeptNames(names) == names
  {
    forall i | 0 <= i < |names| ensures Strip(names[i]) == names[i] {
      assert names[i] in names;
      StripOfStripped(names[i]);
    }
    assert Each(Strip, names) == names;
    KeepNamesOfKept(names);
  }

  /** Every kept name is clean, so reading the names back changes nothing. */
  lemma KeptNamesIdempotent(lines: seq<string>)
    ensures forall c :: c in KeptNames(lines) ==> CleanName(c)
    ensures KeptNames(KeptNames(lines)) == KeptNames(lines)
  {
    var names := KeptNames(lines);
    KeepNamesMembers(Each(Strip, lines));
    forall c | c in names ensures CleanName(c) {
      var i :| 0 <= i < |lines| && Each(Strip, lines)[i] == c;
    }
    KeptNamesOfClean(names);
  }

  // ---------------------------------------------------------------------------
  // The batch

  /** The record `collect_results` substitutes when the finder raises; note its shorter query. */
  function FallbackProfile(company: string): (p: Profile)
    ensures p.companyName == company && p.infoStatus == Error && p.linkedinUrl.None?
    ensures Consistent(p)
    ensures "linkedin " <= p.searchQuery && p.searchQuery[9..] == company
    ensures p.searchQuery != BuildSearchQuery(company)
  {
    Profile(company, "linkedin " + company, None, Error)
  }

  /**
   * `collect_results`: one record per company, in input order, without
   * deduplication. The finder is anything that maps a name to a record or
   * raises (`None`); a raise gives the fallback record and the loop goes on.
   */
  method CollectResults(companies: seq<string>, find: string -> Option<Profile>) returns (results: seq<Profile>)
    ensures |results| == |companies|
    ensures forall i :: 0 <= i < |companies| && find(companies[i]).Some? ==> results[i] == find(companies[i]).value
    ensures forall i :: 0 <= i < |companies| && find(companies[i]).None? ==> results[i] == FallbackProfile(companies[i])
  {
    results := [];
    for i := 0 to |companies|
      invariant |results| == i
      invariant forall k :: 0 <= k < i && find(companies[k]).Some? ==> results[k] == find(companies[k]).value
      invariant forall k :: 0 <= k < i && find(companies[k]).None? ==> results[k] == FallbackProfile(companies[k])
    {
      var company := companies[i];
      var attempt := find(company);
      var result := if attempt.Some? then attempt.value else FallbackProfile(company);
      results := results + [result];
    }
  }

  /** With the real finder every record names its company, uses the finder's query and is consistent. */
  lemma BatchRecordsAreResolved(s: FinderSettings, bing: SearchRequest -> BingResponse,
                                companies: seq<string>, results: seq<Profile>)
    requires |results| == |companies|
    requires forall i :: 0 <= i < |companies| ==> results[i] == Resolve(s, bing, companies[i])
    ensures forall i :: 0 <= i < |results| ==>
              results[i].companyName == companies[i]
              && results[i].searchQuery == BuildSearchQuery(companies[i])
              && Consistent(results[i])
              && results[i] != FallbackProfile(companies[i])
  {
    forall i | 0 <= i < |results|
      ensures results[i] != FallbackProfile(companies[i])
    {
      assert |results[i].searchQuery| != |"linkedin " + companies[i]|;
    }
  }

  // ---------------------------------------------------------------------------
  // Output formats

  datatype Format = Json | Csv | Excel | Xml | Rss

  function FormatName(f: Format): string {
    match f
    case Json => "json"
    case Csv => "csv"
    case Excel => "excel"
    case Xml => "xml"
    case Rss => "rss"
  }

  function Extension(f: Format): string {
    match f
    case Json => ".json"
    case Csv => ".csv"
    case Excel => ".xlsx"
    case Xml => ".xml"
    case Rss => ".rss.xml"
  }

  const BaseName := "linkedin_company_urls"

  function FileName(f: Format): string {
    BaseName + Extension(f)
  }

  /** The position of the format in the dispatch chain. */
  function Rank(f: Format): nat {
    match f
    case Json => 0
    case Csv => 1
    case Excel => 2
    case Xml => 3
    case Rss => 4
  }

  predicate IsValidFormat(name: string) {
    name in {"json", "csv", "excel", "xml", "rss"}
  }

  lemma ValidFormatIsNamed(name: string)
    requires IsValidFormat(name)
    ensures exists f :: FormatName(f) == name
  {
    if name == "json" { assert FormatName(Json) == name; }
    else if name == "csv" { assert FormatName(Csv) == name; }
    else if name == "excel" { assert FormatName(Excel) == name; }
    else if name == "xml" { assert FormatName(Xml) == name; }
    else { assert FormatName(Rss) == name; }
  }

  /** A requested format as the comprehension leaves it: non-empty, stripped, lower-case. */
  predicate CleanFormat(f: string) {
    f != "" && Stripped(f) && NoUpper(f)
  }

  /** `[y for x in xs for y in f(x)]`: what each item contributes, in order. */
  function Gather(f: string -> seq<string>, xs: seq<string>): seq<string>
    decreases |xs|
  {
    if xs == [] then [] else f(xs[0]) + Gather(f, xs[1..])
  }

  lemma {:induction false} GatherAppend(f: string -> seq<string>, a: seq<string>, b: seq<string>)
    ensures Gather(f, a + b) == Gather(f, a) + Gather(f, b)
    decreases |a|
  {
    if a == [] {
      assert a + b == b;
    } else {
      GatherAppend(f, a[1..], b);
      assert (a + b)[1..] == a[1..] + b;
      assert (a + b)[0] == a[0];
      var h, x, y := f(a[0]), Gather(f, a[1..]), Gather(f, b);
      assert Gather(f, a + b) == h + (x + y);
      assert Gather(f, a) == h + x;
      assert h + (x + y) == (h + x) + y;
    }
  }

  lemma {:induction false} GatherMembers(f: string -> seq<string>, xs: seq<string>)
    ensures forall y :: y in Gather(f, xs) <==> exists k :: 0 <= k < |xs| && y in f(xs[k])
    decreases |xs|
  {
    if xs != [] {
      var rest := xs[1..];
      GatherMembers(f, rest);
      forall y ensures y in Gather(f, xs) <==> exists k :: 0 <= k < |xs| && y in f(xs[k]) {
        if exists k :: 0 <= k < |xs| && y in f(xs[k]) {
          var k :| 0 <= k < |xs| && y in f(xs[k]);
          if k > 0 {
            assert rest[k - 1] == xs[k];
          }
        }
        if y in Gather(f, rest) {
          var k :| 0 <= k < |rest| && y in f(rest[k]);
          assert xs[k + 1] == rest[k];
        }
      }
    }
  }

  lemma {:induction false} GatherBound(f: string -> seq<string>, xs: seq<string>)
    requires forall k :: 0 <= k < |xs| ==> |f(xs[k])| <= 1
    ensures |Gather(f, xs)| <= |xs|
    decreases |xs|
  {
    if xs != [] {
      assert forall k :: 0 <= k < |xs| - 1 ==> xs[1..][k] == xs[k + 1];
      GatherBound(f, xs[1..]);
    }
  }

  lemma {:induction false} GatherFixed(f: string -> seq<string>, xs: seq<string>)
    requires forall k :: 0 <= k < |xs| ==> f(xs[k]) == [xs[k]]
    ensures Gather(f, xs) == xs
    decreases |xs|
  {
    if xs != [] {
      assert forall k :: 0 <= k < |xs| - 1 ==> xs[1..][k] == xs[k + 1];
      GatherFixed(f, xs[1..]);
      assert [xs[0]] + xs[1..] == xs;
    }
  }

  /** What one piece contributes: its stripped, lower-cased text, or nothing when that is blank. */
  function PieceFormat(piece: string): (fs: seq<string>)
    ensures |fs| <= 1
  {
    if Strip(piece) != "" then [Lower(Strip(piece))] else []
  }

  /** What a piece contributes is a clean format. */
  lemma PieceFormatClean(piece: string)
    ensures forall f :: f in PieceFormat(piece) ==> CleanFormat(f)
  {
    var p := Strip(piece);
    if p != "" {
      LowerKeepsStripped(p);
      LowerHasNoUpper(p);
    }
  }

  /** A clean format is its own contribution. */
  lemma PieceFormatOfClean(f: string)
    requires CleanFormat(f)
    ensures PieceFormat(f) == [f]
  {
    StripOfStripped(f);
    LowerOfNoUpper(f);
  }

  /** `[f.strip().lower() for f in pieces if f.strip()]`. */
  function CleanPieces(pieces: seq<string>): (fs: seq<string>)
    ensures |fs| <= |pieces|
  {
    GatherBound(PieceFormat, pieces);
    Gather(PieceFormat, pieces)
  }

  /** The formats kept are exactly the stripped, lower-cased forms of the pieces that are not blank. */
  lemma CleanPiecesMembers(pieces: seq<string>)
    ensures forall f :: f in CleanPieces(pieces) <==>
              exists k :: 0 <= k < |pieces| && Strip(pieces[k]) != "" && f == Lower(Strip(pieces[k]))
  {
    GatherMembers(PieceFormat, pieces);
    forall f ensures f in CleanPieces(pieces) <==>
                     exists k :: 0 <= k < |pieces| && Strip(pieces[k]) != "" && f == Lower(Strip(pieces[k])) {
      if f in CleanPieces(pieces) {
        var k :| 0 <= k < |pieces| && f in PieceFormat(pieces[k]);
        assert Strip(pieces[k]) != "" && f == Lower(Strip(pieces[k]));
      }
      if exists k :: 0 <= k < |pieces| && Strip(pieces[k]) != "" && f == Lower(Strip(pieces[k])) {
        var k :| 0 <= k < |pieces| && Strip(pieces[k]) != "" && f == Lower(Strip(pieces[k]));
        assert f in PieceFormat(pieces[k]);
      }
    }
  }

  /** The `--formats` argument: split on commas, each piece stripped and lower-cased, blanks dropped. */
  function ParseFormats(arg: string): (fs: seq<string>)
    ensures forall f :: f in fs ==> CleanFormat(f) && ',' !in f
  {
    var pieces := Split(arg, ',');
    CleanPiecesFrom(pieces);
    CleanPieces(pieces)
  }

  /** Comma-free pieces give clean, comma-free formats. */
  lemma CleanPiecesFrom(pieces: seq<string>)
    requires forall k :: 0 <= k < |pieces| ==> ',' !in pieces[k]
    ensures forall f :: f in CleanPieces(pieces) ==> CleanFormat(f) && ',' !in f
  {
    GatherMembers(PieceFormat, pieces);
    forall f | f in CleanPieces(pieces) ensures CleanFormat(f) && ',' !in f {
      var k :| 0 <= k < |pieces| && f in PieceFormat(pieces[k]);
      PieceFormatClean(pieces[k]);
      CommaNotIntroduced(pieces[k]);
    }
  }

  /** Neither stripping nor lower-casing can bring in a comma. */
  lemma CommaNotIntroduced(s: string)
    requires ',' !in s
    ensures ',' !in Lower(Strip(s))
  {
    var r := Strip(s);
    StripIsInfix(s);
    var i :| StripsTo(s, r, i);
    forall k | 0 <= k < |r| ensures Lower(r)[k] != ',' {
      assert r[k] == s[i + k];
      assert IsUpper(r[k]) ==> 'a' <= LowerChar(r[k]) <= 'z';
    }
  }

  lemma CleanPiecesOfClean(fs: seq<string>)
    requires forall k :: 0 <= k < |fs| ==> CleanFormat(fs[k])
    ensures CleanPieces(fs) == fs
  {
    forall k | 0 <= k < |fs| ensures PieceFormat(fs[k]) == [fs[k]] {
      PieceFormatOfClean(fs[k]);
    }
    GatherFixed(PieceFormat, fs);
  }

  lemma CleanPiecesOne(piece: string)
    ensures CleanPieces([piece]) == PieceFormat(piece)
  {
    assert [piece][1..] == [];
    assert Gather(PieceFormat, [piece]) == PieceFormat(piece) + Gather(PieceFormat, []);
  }

  /** The comprehension keeps order: it distributes over concatenation. */
  lemma CleanPiecesAppend(a: seq<string>, b: seq<string>)
    ensures CleanPieces(a + b) == CleanPieces(a) + CleanPieces(b)
  {
    GatherAppend(PieceFormat, a, b);
  }

  /** An argument without a comma is one piece. */
  lemma ParseFormatsOnePiece(arg: string)
    requires ',' !in arg
    ensures ParseFormats(arg) == PieceFormat(arg)
  {
    SplitNoSep(arg, ',');
    CleanPiecesOne(arg);
  }

  /** The first comma ends the first piece; the rest is parsed on its own, in order. */
  lemma ParseFormatsFirstPiece(a: string, b: string)
    requires ',' !in a
    ensures ParseFormats(a + [','] + b) == PieceFormat(a) + ParseFormats(b)
  {
    SplitAtSep(a, ',', b);
    CleanPiecesAppend([a], Split(b, ','));
    CleanPiecesOne(a);
  }

  lemma PaddedCapitalsPiece()
    ensures PieceFormat(" JSON ") == ["json"]
  {
    assert Strip(" JSON ") == "JSON" by {
      assert " JSON "[1..] == "JSON ";
      assert "JSON "[..4] == "JSON";
      StripOfStripped("JSON");
    }
    var l := Lower("JSON");
    assert l[0] == 'j' && l[1] == 's' && l[2] == 'o' && l[3] == 'n';
    assert l == "json";
  }

  lemma PlainPiece()
    ensures PieceFormat("csv") == ["csv"] && PieceFormat("") == []
  {
    StripOfStripped("csv");
    LowerOfNoUpper("csv");
    StripOfStripped("");
  }

  /** An empty piece between two commas asks for nothing. */
  lemma ParseFormatsBlankPiece(a: string, b: string)
    requires ',' !in a && ',' !in b
    ensures ParseFormats(a + [','] + [','] + b) == PieceFormat(a) + PieceFormat(b)
  {
    var rest := [','] + b;
    assert a + [','] + [','] + b == a + [','] + rest;
    assert rest == "" + [','] + b;
    ParseFormatsFirstPiece(a, rest);
    ParseFormatsFirstPiece("", b);
    ParseFormatsOnePiece(b);
  }

  /** Blank pieces are dropped, the others stripped and lower-cased: ` JSON ,,csv` asks for json and csv. */
  lemma ParseFormatsExample()
    ensures ParseFormats(" JSON ,,csv") == ["json", "csv"]
  {
    assert " JSON ,,csv" == " JSON " + [','] + [','] + "csv";
    ParseFormatsBlankPiece(" JSON ", "csv");
    PaddedCapitalsPiece();
    PlainPiece();
  }

  /** Joining clean format names with commas and parsing the result gives the names back. */
  lemma ParseFormatsRoundTrip(fs: seq<string>)
    requires forall f :: f in fs ==> CleanFormat(f) && ',' !in f
    ensures ParseFormats(Join(fs, ',')) == fs
  {
    if fs == [] {
      ParseFormatsOnePiece("");
    } else {
      SplitJoin(fs, ',');
      CleanPiecesOfClean(fs);
    }
  }

  /** Every item lower-cased when all are strings; `None` when one is not (`.lower()` raises). */
  function LowerItems(items: seq<Setting>): (r: Option<seq<string>>)
    ensures r.Some? <==> forall k :: 0 <= k < |items| ==> items[k].SStr?
    ensures r.Some? ==> |r.value| == |items|
    ensures r.Some? ==> forall k :: 0 <= k < |items| ==> r.value[k] == Lower(items[k].s)
    decreases |items|
  {
    if items == [] then Some([])
    else if !items[0].SStr? then None
    else
      var rest := LowerItems(items[1..]);
      if rest.None? then None else Some([Lower(items[0].s)] + rest.value)
  }

  /** Iterating over a string: each character, as a one-character string, lower-cased. */
  function LowerChars(s: string): (r: seq<string>)
    ensures |r| == |s|
    ensures forall k :: 0 <= k < |s| ==> r[k] == [LowerChar(s[k])]
    decreases |s|
  {
    if s == [] then [] else [Lower([s[0]])] + LowerChars(s[1..])
  }

  /** `[f.lower() for f in value]` over a configured value; `None` where Python raises. */
  function ConfiguredFormats(value: Setting): (r: Option<seq<string>>)
    ensures r.Some? <==> (value.SList? && forall k :: 0 <= k < |value.items| ==> value.items[k].SStr?)
                         || value.SStr? || value.SObject?
    ensures r.Some? && value.SList? ==> |r.value| == |value.items|
    ensures r.Some? && value.SStr? ==> |r.value| == |value.s|
    ensures r.Some? && value.SObject? ==> |r.value| == |value.keys|
    ensures r.Some? && value.SList? ==> forall k :: 0 <= k < |r.value| ==> r.value[k] == Lower(value.items[k].s)
    ensures r.Some? && value.SStr? ==> forall k :: 0 <= k < |r.value| ==> r.value[k] == [LowerChar(value.s[k])]
    ensures r.Some? && value.SObject? ==> forall k :: 0 <= k < |r.value| ==> r.value[k] == Lower(value.keys[k])
    ensures r.Some? ==> forall k :: 0 <= k < |r.value| ==> NoUpper(r.value[k])
  {
    match value
    case SList(items) => LowerItems(items)
    case SStr(s) => Some(LowerChars(s))
    case SObject(keys) => Some(Each(Lower, keys))
    case _ => None
  }

  /** The requested formats: the argument when it is given and non-empty, else the setting. */
  function RequestedFormats(formatsArg: Option<string>, settings: map<string, Setting>): (r: Option<seq<string>>)
    ensures formatsArg.Some? && formatsArg.value != "" ==> r == Some(ParseFormats(formatsArg.value))
    ensures formatsArg.None? || formatsArg.value == "" ==>
              r == ConfiguredFormats(SettingOr(settings, "output_formats", SList([SStr("json")])))
    ensures (formatsArg.None? || formatsArg.value == "") && "output_formats" !in settings ==> r == Some(["json"])
    ensures r.Some? ==> forall k :: 0 <= k < |r.value| ==> NoUpper(r.value[k])
  {
    if formatsArg.Some? && formatsArg.value != "" then
      var fs := ParseFormats(formatsArg.value);
      assert forall k :: 0 <= k < |fs| ==> fs[k] in fs;
      Some(fs)
    else
      LowerOfNoUpper("json");
      assert ConfiguredFormats(SList([SStr("json")])) == Some(["json"]) by {
        var items := [SStr("json")];
        assert items[0].SStr? && items[0].s == "json";
        var r := LowerItems(items);
        assert r.Some? && |r.value| == 1 && r.value[0] == Lower("json");
        assert r.value == ["json"];
      }
      ConfiguredFormats(SettingOr(settings, "output_formats", SList([SStr("json")])))
  }

  /** `[f for f in output_formats if f in valid_formats]`. */
  function ValidFormats(fs: seq<string>): (vs: seq<string>)
    ensures |vs| <= |fs|
    decreases |fs|
  {
    if fs == [] then []
    else (if IsValidFormat(fs[0]) then [fs[0]] else []) + ValidFormats(fs[1..])
  }

  /** The formats kept are exactly the requested names that are valid. */
  lemma {:induction false} ValidFormatsMembers(fs: seq<string>)
    ensures forall f :: f in ValidFormats(fs) <==> f in fs && IsValidFormat(f)
    decreases |fs|
  {
    if fs != [] {
      ValidFormatsMembers(fs[1..]);
      assert fs == [fs[0]] + fs[1..];
    }
  }

  /** The filter keeps relative order: it distributes over concatenation. */
  lemma {:induction false} ValidFormatsAppend(a: seq<string>, b: seq<string>)
    ensures ValidFormats(a + b) == ValidFormats(a) + ValidFormats(b)
    decreases |a|
  {
    if a != [] {
      ValidFormatsAppend(a[1..], b);
      assert (a + b)[1..] == a[1..] + b;
      assert (a + b)[0] == a[0];
      var h, x, y := if IsValidFormat(a[0]) then [a[0]] else [], ValidFormats(a[1..]), ValidFormats(b);
      assert ValidFormats(a + b) == h + (x + y);
      assert ValidFormats(a) == h + x;
      assert h + (x + y) == (h + x) + y;
    } else {
      assert a + b == b;
    }
  }

  // ---------------------------------------------------------------------------
  // Dispatch

  datatype ExportFile = ExportFile(format: Format, fileName: string, output: Rendering)

  /** What the exporter of a format builds from the records. */
  predicate Renders(f: Format, records: seq<Record>, out: Rendering) {
    match f
    case Json => out == ExportJson(records)
    case Csv => out == ExportCsv(records)
    case Excel => out == ExportExcel(records)
    case Xml => out.XmlDocument? && IsXmlTreeOf(out.root, records)
    case Rss => out.XmlDocument? && IsRssFeedOf(out.root, records)
  }

  predicate Exported(files: seq<ExportFile>, f: Format) {
    exists i :: 0 <= i < |files| && files[i].format == f
  }

  /** Each file has its format's fixed name and what that format's exporter builds. */
  predicate AllRendered(files: seq<ExportFile>, records: seq<Record>) {
    forall i :: 0 <= i < |files| ==>
      files[i].fileName == FileName(files[i].format) && Renders(files[i].format, records, files[i].output)
  }

  /** The formats run in rank order, and those ranked below `n` run exactly when requested. */
  predicate PlannedBelow(files: seq<ExportFile>, formats: seq<string>, n: nat) {
    (forall i :: 0 <= i < |files| ==> Rank(files[i].format) < n)
    && (forall i, j :: 0 <= i < j < |files| ==> Rank(files[i].format) < Rank(files[j].format))
    && (forall f :: Exported(files, f) <==> Rank(f) < n && FormatName(f) in formats)
  }

  /**
   * The exports run in the fixed order json, csv, excel, xml, rss, each at
   * most once and exactly for the requested formats, under fixed names.
   */
  predicate IsExportPlan(files: seq<ExportFile>, formats: seq<string>, records: seq<Record>) {
    PlannedBelow(files, formats, Rank(Rss) + 1) && AllRendered(files, records)
  }

  /** Every valid format asked for is written, and no file is written that was not asked for. */
  lemma ExportsMatchRequest(files: seq<ExportFile>, fs: seq<string>, records: seq<Record>)
    requires IsExportPlan(files, ValidFormats(fs), records)
    ensures forall name :: name in fs && IsValidFormat(name) ==>
              exists i :: 0 <= i < |files| && FormatName(files[i].format) == name
    ensures forall i :: 0 <= i < |files| ==> FormatName(files[i].format) in fs
  {
    ValidFormatsMembers(fs);
    forall name | name in fs && IsValidFormat(name)
      ensures exists i :: 0 <= i < |files| && FormatName(files[i].format) == name
    {
      ValidFormatIsNamed(name);
      var f :| FormatName(f) == name;
      assert Exported(files, f);
    }
    forall i | 0 <= i < |files| ensures FormatName(files[i].format) in fs {
      assert Exported(files, files[i].format);
    }
  }

  lemma PlanAdd(files: seq<ExportFile>, formats: seq<string>, e: ExportFile)
    requires PlannedBelow(files, formats, Rank(e.format))
    requires FormatName(e.format) in formats
    ensures PlannedBelow(files + [e], formats, Rank(e.format) + 1)
  {
    var files' := files + [e];
    forall f ensures Exported(files', f) <==> Rank(f) < Rank(e.format) + 1 && FormatName(f) in formats {
      if f == e.format {
        assert files'[|files|].format == f;
      } else {
        if Exported(files, f) {
          var i :| 0 <= i < |files| && files[i].format == f;
          assert files'[i] == files[i];
        }
        if Exported(files', f) {
          var i :| 0 <= i < |files'| && files'[i].format == f;
          assert files[i] == files'[i];
        }
      }
    }
  }

  lemma PlanSkip(files: seq<ExportFile>, formats: seq<string>, f: Format)
    requires PlannedBelow(files, formats, Rank(f))
    requires FormatName(f) !in formats
    ensures PlannedBelow(files, formats, Rank(f) + 1)
  {
  }

  /** One link of the chain: export `f` when it is requested. */
  method ExportIfRequested(files: seq<ExportFile>, formats: seq<string>, records: seq<Record>, f: Format)
    returns (files': seq<ExportFile>)
    requires PlannedBelow(files, formats, Rank(f)) && AllRendered(files, records)
    ensures PlannedBelow(files', formats, Rank(f) + 1) && AllRendered(files', records)
  {
    if FormatName(f) !in formats {
      PlanSkip(files, formats, f);
      return files;
    }
    var output: Rendering;
    match f {
      case Json => output := ExportJson(records);
      case Csv => output := ExportCsv(records);
      case Excel => output := ExportExcel(records);
      case Xml =>
        var root := BuildXmlTree(records);
        output := XmlDocument(root);
      case Rss =>
        var rss := BuildRssFeed(records);
        output := XmlDocument(rss);
    }
    var e := ExportFile(f, FileName(f), output);
    PlanAdd(files, formats, e);
    files' := files + [e];
  }

  /** The chain of `if "<format>" in output_formats` in `main`: json, csv, excel, xml, rss. */
  method ExportAll(formats: seq<string>, records: seq<Record>) returns (files: seq<ExportFile>)
    ensures IsExportPlan(files, formats, records)
  {
    files := [];
    files := ExportIfRequested(files, formats, records, Json);
    files := ExportIfRequested(files, formats, records, Csv);
    files := ExportIfRequested(files, formats, records, Excel);
    files := ExportIfRequested(files, formats, records, Xml);
    files := ExportIfRequested(files, formats, records, Rss);
  }

  // ---------------------------------------------------------------------------
  // main

  datatype RunOutcome =
    | Crashed
    | NoValidFormats
    | NoCompanies
    | Completed(results: seq<Profile>, files: seq<ExportFile>)

  function ExitStatus(o: RunOutcome): int {
    if o.Completed? then 0 else 1
  }

  /** Python truthiness of a JSON value. */
  predicate SettingTruthy(v: Setting) {
    match v
    case SNull => false
    case SBool(b) => b
    case SNumber(n) => n != 0
    case SStr(s) => s != ""
    case SList(items) => items != []
    case SObject(keys) => keys != []
  }

  /**
   * The finder's arguments from the settings, each with its `.get` default.
   * A falsy user agent reaches the finder as "" (the finder then uses its
   * default); `None` where a value has a type the model does not carry.
   */
  function FinderArgs(settings: map<string, Setting>): (args: Option<(string, int, string)>)
    ensures args.Some? <==>
              && SettingOr(settings, "search_engine", SStr(DefaultEngine)).SStr?
              && SettingOr(settings, "request_timeout", SNumber(10)).SNumber?
              && (SettingOr(settings, "user_agent", SStr(DefaultUserAgent)).SStr?
                  || !SettingTruthy(SettingOr(settings, "user_agent", SStr(DefaultUserAgent))))
    ensures args.Some? ==> SettingOr(settings, "search_engine", SStr(DefaultEngine)) == SStr(args.value.0)
    ensures args.Some? ==> SettingOr(settings, "request_timeout", SNumber(10)) == SNumber(args.value.1)
    ensures args.Some? && args.value.2 != "" ==> SettingOr(settings, "user_agent", SStr(DefaultUserAgent)) == SStr(args.value.2)
    ensures args.Some? && args.value.2 == "" ==> !SettingTruthy(SettingOr(settings, "user_agent", SStr(DefaultUserAgent)))
  {
    var engine := SettingOr(settings, "search_engine", SStr(DefaultEngine));
    var timeout := SettingOr(settings, "request_timeout", SNumber(10));
    var agent := SettingOr(settings, "user_agent", SStr(DefaultUserAgent));
    if engine.SStr? && timeout.SNumber? && (agent.SStr? || !SettingTruthy(agent)) then
      Some((engine.s, timeout.n, if agent.SStr? then agent.s else ""))
    else None
  }

  /** The default settings give the finder its arguments: `bing`, 10 seconds and the bot's user agent. */
  lemma DefaultFinderArgs()
    ensures FinderArgs(Defaults()) == Some((DefaultEngine, 10, DefaultUserAgent))
  {
  }

  function AsRecords(results: seq<Profile>): (records: seq<Record>)
    ensures |records| == |results|
    ensures forall i :: 0 <= i < |results| ==> records[i] == ToRecord(results[i])
  {
    seq(|results|, i requires 0 <= i < |results| => ToRecord(results[i]))
  }

  /** The end of `main`: build the finder, look every company up, export the records. */
  method RunBatch(formats: seq<string>, companies: seq<string>, engine: string, timeout: int, agent: string,
                  bing: SearchRequest -> BingResponse)
    returns (results: seq<Profile>, files: seq<ExportFile>)
    ensures |results| == |companies|
    ensures forall i :: 0 <= i < |companies| ==>
              results[i] == Resolve(Normalise(engine, timeout, agent), bing, companies[i])
    ensures IsExportPlan(files, formats, AsRecords(results))
  {
    var finder := new LinkedInFinder(bing, engine, timeout, agent);
    var s := finder.Settings();
    results := CollectResults(companies, name => Some(Resolve(s, bing, name)));
    files := ExportAll(formats, AsRecords(results));
  }

  /**
   * `main` after argument parsing and settings loading: choose the formats
   * (and stop with status 1 before any lookup if none is valid), read the
   * names (status 1 if there are none), build the finder, run the batch and
   * export.
   */
  method RunMain(formatsArg: Option<string>, settings: map<string, Setting>, lines: seq<string>,
                 bing: SearchRequest -> BingResponse)
    returns (outcome: RunOutcome)
    ensures RequestedFormats(formatsArg, settings).None? ==> outcome == Crashed
    ensures (RequestedFormats(formatsArg, settings).Some?
             && ValidFormats(RequestedFormats(formatsArg, settings).value) == []) ==> outcome == NoValidFormats
    ensures outcome == NoCompanies <==>
              RequestedFormats(formatsArg, settings).Some?
              && ValidFormats(RequestedFormats(formatsArg, settings).value) != []
              && KeptNames(lines) == []
    ensures outcome.Completed? ==>
              && RequestedFormats(formatsArg, settings).Some?
              && FinderArgs(settings).Some?
              && var (engine, timeout, agent) := FinderArgs(settings).value;
                 var names := KeptNames(lines);
                 && |outcome.results| == |names| > 0
                 && (forall i :: 0 <= i < |names| ==>
                       outcome.results[i] == Resolve(Normalise(engine, timeout, agent), bing, names[i]))
                 && IsExportPlan(outcome.files, ValidFormats(RequestedFormats(formatsArg, settings).value),
                                 AsRecords(outcome.results))
    ensures (RequestedFormats(formatsArg, settings).Some?
             && ValidFormats(RequestedFormats(formatsArg, settings).value) != []
             && KeptNames(lines) != []
             && FinderArgs(settings).None?) ==> outcome == Crashed
    ensures ExitStatus(outcome) == 0 <==>
              && RequestedFormats(formatsArg, settings).Some?
              && ValidFormats(RequestedFormats(formatsArg, settings).value) != []
              && KeptNames(lines) != []
              && FinderArgs(settings).Some?
  {
    var requested := RequestedFormats(formatsArg, settings);
    if requested.None? {
      return Crashed;
    }
    var formats := ValidFormats(requested.value);
    if formats == [] {
      return NoValidFormats;
    }
    var companies := ReadCompanyList(lines);
    if companies == [] {
      return NoCompanies;
    }
    var args := FinderArgs(settings);
    if args.None? {
      return Crashed;
    }
    var (engine, timeout, agent) := args.value;
    var results, files := RunBatch(formats, companies, engine, timeout, agent, bing);
    return Completed(results, files);
  }

  /** What the feed shows for a finder record: its name, its URL or LinkedIn's home, its status and query. */
  lemma FeedItemOfProfile(p: Profile)
    ensures p.companyName != "" ==> ItemTitle(ToRecord(p)) == p.companyName
    ensures p.companyName == "" ==> ItemTitle(ToRecord(p)) == UnknownCompany
    ensures p.linkedinUrl.Some? && p.linkedinUrl.value != "" ==> ItemLink(ToRecord(p)) == p.linkedinUrl.value
    ensures p.linkedinUrl.None? ==> ItemLink(ToRecord(p)) == LinkedInHome
    ensures ItemDescription(ToRecord(p)) == "Status: " + StatusText(p.infoStatus) + ". Query: " + p.searchQuery
  {
    var r := ToRecord(p);
    assert StatusText(p.infoStatus) != "";
    assert GetOr(r, "searchQuery", "") == p.searchQuery;
  }
}
