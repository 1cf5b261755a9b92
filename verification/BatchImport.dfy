/** `Queue.Import` of pkg/batch/import.go: lines are inserted in batches, and the numbers come out as
    if they had been inserted one by one. */
module BatchImport {
  import opened Wrappers
  import opened Counting

  datatype Stats = Stats(lines: nat, invalid: nat, inserted: nat, duplicates: nat)

  const NO_STATS: Stats := Stats(0, 0, 0, 0)

  /** What `Normalize` makes of a line: the URL, or nothing. */
  type Normalizer = string -> Option<string>

  datatype Import = Import(stats: Stats, urls: set<string>)

  predicate Skipped(line: string) {
    line == "" || line[0] == '#'
  }

  /** One trimmed line inserted on its own into a queue that already holds `urls`. */
  function OneLine(before: Import, line: string, normalize: Normalizer): Import {
    var stats := before.stats;
    if Skipped(line) then before
    else
      match normalize(line)
      case None => Import(stats.(lines := stats.lines + 1, invalid := stats.invalid + 1), before.urls)
      case Some(url) =>
        if url in before.urls then Import(stats.(lines := stats.lines + 1, duplicates := stats.duplicates + 1), before.urls)
        else Import(stats.(lines := stats.lines + 1, inserted := stats.inserted + 1), before.urls + {url})
  }

  /** The reference: one line at a time. */
  function OneByOne(lines: seq<string>, known: set<string>, normalize: Normalizer): Import {
    if lines == [] then Import(NO_STATS, known)
    else OneLine(OneByOne(lines[..|lines| - 1], known, normalize), lines[|lines| - 1], normalize)
  }

  /** The URLs named by the lines. */
  function UrlsOf(lines: seq<string>, normalize: Normalizer): set<string> {
    set line | line in lines && !Skipped(line) && normalize(line).Some? :: normalize(line).value
  }

  lemma {:induction false} EachLineCountsOnce(lines: seq<string>, known: set<string>, normalize: Normalizer)
    ensures var after := OneByOne(lines, known, normalize);
            && after.stats.lines == after.stats.invalid + after.stats.inserted + after.stats.duplicates
            && |after.urls| == |known| + after.stats.inserted
  {
    if lines != [] {
      EachLineCountsOnce(lines[..|lines| - 1], known, normalize);
    }
  }

  lemma {:induction false} AllUrlsGetIn(lines: seq<string>, known: set<string>, normalize: Normalizer)
    ensures OneByOne(lines, known, normalize).urls == known + UrlsOf(lines, normalize)
  {
    if lines == [] {
      assert UrlsOf(lines, normalize) == {};
    } else {
      var rest, line := lines[..|lines| - 1], lines[|lines| - 1];
      AllUrlsGetIn(rest, known, normalize);
      assert lines == rest + [line];
      assert UrlsOf(lines, normalize) == UrlsOf(rest, normalize) + if !Skipped(line) && normalize(line).Some? then {normalize(line).value} else {};
    }
  }

  /** A line of its own that is no comment. */
  predicate IsLine(line: string) {
    line != "" && line[0] != '#'
  }

  function IsInvalid(normalize: Normalizer): string -> bool {
    (line: string) => IsLine(line) && normalize(line).None?
  }

  lemma {:induction false} LinesAreCounted(lines: seq<string>, known: set<string>, normalize: Normalizer)
    ensures OneByOne(lines, known, normalize).stats.lines == Count(lines, IsLine)
    ensures OneByOne(lines, known, normalize).stats.invalid == Count(lines, IsInvalid(normalize))
  {
    if lines != [] {
      LinesAreCounted(lines[..|lines| - 1], known, normalize);
    }
  }

  /** What the numbers mean: every line that is no comment is counted, those that name no URL are invalid,
      as many URLs are inserted as are new, and the rest are duplicates. */
  lemma OneByOneMeaning(lines: seq<string>, known: set<string>, normalize: Normalizer)
    ensures var after := OneByOne(lines, known, normalize);
            && after.urls == known + UrlsOf(lines, normalize)
            && after.stats.inserted == |UrlsOf(lines, normalize) - known|
            && after.stats.lines == Count(lines, IsLine) && after.stats.invalid == Count(lines, IsInvalid(normalize))
            && after.stats.lines == after.stats.invalid + after.stats.inserted + after.stats.duplicates
  {
    LinesAreCounted(lines, known, normalize);
    EachLineCountsOnce(lines, known, normalize);
    AllUrlsGetIn(lines, known, normalize);
    assert known + UrlsOf(lines, normalize) == known + (UrlsOf(lines, normalize) - known);
  }

  /** The members of `params` that the queue already holds. */
  function Old(params: seq<string>, urls: set<string>): nat {
    if params == [] then 0 else Old(params[..|params| - 1], urls) + if params[|params| - 1] in urls then 1 else 0
  }

  predicate Distinct(params: seq<string>) {
    forall i, j | 0 <= i < j < |params| :: params[i] != params[j]
  }

  function Members(params: seq<string>): set<string> {
    set url | url in params
  }

  /** The state of the loop stands for the reference run with the pending parameters still open. */
  ghost predicate Stands(stats: Stats, urls: set<string>, params: seq<string>, reference: Import) {
    && Distinct(params)
    && reference.urls == urls + Members(params)
    && reference.stats.lines == stats.lines && reference.stats.invalid == stats.invalid
    && reference.stats.duplicates == stats.duplicates + Old(params, urls)
    && reference.stats.inserted + Old(params, urls) == stats.inserted + |params|
  }

  lemma {:induction false} OldGrows(params: seq<string>, urls: set<string>, url: string)
    requires url !in params
    ensures Old(params, urls + {url}) == Old(params, urls)
  {
    if params != [] {
      OldGrows(params[..|params| - 1], urls, url);
    }
  }

  lemma OldAppend(params: seq<string>, urls: set<string>, url: string)
    ensures Old(params + [url], urls) == Old(params, urls) + if url in urls then 1 else 0
    ensures Members(params + [url]) == Members(params) + {url}
  {
    assert (params + [url])[..|params|] == params;
  }

  /** `InsertMany` of distinct URLs: each is inserted or skipped as a duplicate. */
  method InsertMany(urls: set<string>, params: seq<string>) returns (all: set<string>, skipped: seq<bool>)
    requires Distinct(params)
    ensures all == urls + Members(params)
    ensures |skipped| == |params| && forall i | 0 <= i < |params| :: skipped[i] <==> params[i] in urls
  {
    all, skipped := urls, [];
    for i := 0 to |params|
      invariant all == urls + Members(params[..i]) && |skipped| == i
      invariant forall j | 0 <= j < i :: skipped[j] <==> params[j] in urls
    {
      assert params[..i + 1] == params[..i] + [params[i]];
      OldAppend(params[..i], urls, params[i]);
      skipped := skipped + [params[i] in all];
      all := all + {params[i]};
    }
    assert params[..|params|] == params;
  }

  /** The `flush` closure. */
  method Flush(stats: Stats, urls: set<string>, params: seq<string>, commits: bool, ghost reference: Import)
    returns (after: Stats, all: set<string>)
    requires Stands(stats, urls, params, reference)
    ensures commits ==> after == reference.stats && all == reference.urls
    ensures !commits ==> after == stats && all == urls
  {
    after, all := stats, urls;
    if !commits {
      return;
    }
    var skipped;
    all, skipped := InsertMany(urls, params);
    for i := 0 to |skipped|
      invariant after.lines == stats.lines && after.invalid == stats.invalid
      invariant after.duplicates == stats.duplicates + Old(params[..i], urls)
      invariant after.inserted + Old(params[..i], urls) == stats.inserted + i
    {
      assert params[..i + 1] == params[..i] + [params[i]];
      OldAppend(params[..i], urls, params[i]);
      if skipped[i] {
        after := after.(duplicates := after.duplicates + 1);
      } else {
        after := after.(inserted := after.inserted + 1);
      }
    }
    assert params[..|params|] == params;
  }

  lemma StandsEmpty(stats: Stats, urls: set<string>)
    ensures Stands(stats, urls, [], Import(stats, urls))
  {
    assert Members([]) == {};
  }

  lemma StandsOneMore(stats: Stats, urls: set<string>, params: seq<string>, reference: Import, url: string)
    requires Stands(stats, urls, params, reference) && url !in params
    ensures var next := reference.stats.(lines := stats.lines + 1);
            Stands(stats.(lines := stats.lines + 1), urls, params + [url],
                   if url in reference.urls then Import(next.(duplicates := next.duplicates + 1), reference.urls)
                   else Import(next.(inserted := next.inserted + 1), reference.urls + {url}))
  {
    OldAppend(params, urls, url);
  }

  /** One turn of the scan loop, up to the flush. */
  method Read(line: string, stats: Stats, urls: set<string>, params: seq<string>, normalize: Normalizer, ghost reference: Import)
    returns (after: Stats, pending: seq<string>)
    requires Stands(stats, urls, params, reference)
    ensures Stands(after, urls, pending, OneLine(reference, line, normalize))
    ensures pending == params || (|pending| == |params| + 1 && pending[..|params|] == params)
  {
    after, pending := stats, params;
    if Skipped(line) {
      return;
    }
    after := after.(lines := after.lines + 1);
    match normalize(line)
    case None =>
      after := after.(invalid := after.invalid + 1);
    case Some(url) =>
      if url in params {
        after := after.(duplicates := after.duplicates + 1);
      } else {
        StandsOneMore(stats, urls, params, reference, url);
        pending := params + [url];
      }
  }

  /** `Import`. `commits` says which of the batches reach the database; `readable` whether the input can
      be read to its end. */
  method ImportLines(lines: seq<string>, batchSize: int, known: set<string>, normalize: Normalizer, commits: nat -> bool, readable: bool)
    returns (ok: bool, stats: Stats, urls: set<string>)
    ensures batchSize < 1 ==> !ok && stats == NO_STATS && urls == known
    ensures ok ==> Import(stats, urls) == OneByOne(lines, known, normalize)
    ensures batchSize >= 1 && readable && (forall n :: commits(n)) ==> ok
    ensures known <= urls <= known + UrlsOf(lines, normalize)
    ensures batchSize >= 1 ==> 0 <= stats.lines - stats.invalid - stats.inserted - stats.duplicates <= batchSize
  {
    stats, urls, ok := NO_STATS, known, false;
    if batchSize < 1 {
      return;
    }
    var params, batches := [], 0;
    StandsEmpty(NO_STATS, known);
    for i := 0 to |lines|
      invariant Stands(stats, urls, params, OneByOne(lines[..i], known, normalize))
      invariant |params| < batchSize && known <= urls
    {
      ghost var reference := OneByOne(lines[..i + 1], known, normalize);
      assert lines[..i + 1][..i] == lines[..i];
      StandsFacts(lines, i + 1, known, normalize);
      stats, params := Read(lines[i], stats, urls, params, normalize, OneByOne(lines[..i], known, normalize));
      if |params| == batchSize {
        var committed := commits(batches);
        batches := batches + 1;
        stats, urls := Flush(stats, urls, params, committed, reference);
        if !committed {
          return;
        }
        params := [];
        StandsEmpty(stats, urls);
      }
    }
    assert lines[..|lines|] == lines;
    StandsFacts(lines, |lines|, known, normalize);
    if readable {
      ok := params == [] || commits(batches);
      stats, urls := Flush(stats, urls, params, ok, OneByOne(lines, known, normalize));
    }
  }

  lemma StandsFacts(lines: seq<string>, n: nat, known: set<string>, normalize: Normalizer)
    requires n <= |lines|
    ensures var after := OneByOne(lines[..n], known, normalize);
            && known <= after.urls <= known + UrlsOf(lines, normalize)
            && after.stats.lines == after.stats.invalid + after.stats.inserted + after.stats.duplicates
  {
    OneByOneMeaning(lines[..n], known, normalize);
    UrlsOfPrefix(lines, n, normalize);
  }

  lemma UrlsOfPrefix(lines: seq<string>, n: nat, normalize: Normalizer)
    requires n <= |lines|
    ensures UrlsOf(lines[..n], normalize) <= UrlsOf(lines, normalize)
  {
  }
}
