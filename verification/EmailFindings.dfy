/** What an email search has found (pkg/emails/search.go): the addresses with their sources, an index
    into them, and the warnings. */
module EmailFindings {
  import opened Ordering

  datatype Source = Source(url: string, foundIn: string)

  datatype Address = Address(address: string, sources: seq<Source>)

  const EMAIL_LIMIT: string := "email limit reached"

  /** `recorded` logs every address and source given to `record`. */
  datatype Findings = Findings(maxEmails: nat, addresses: map<string, nat>, emails: seq<Address>,
                               warnings: seq<string>, limited: bool, recorded: set<(string, Source)>)

  function Nothing(maxEmails: nat): Findings {
    Findings(maxEmails, map[], [], [], false, {})
  }

  /** `warn`. */
  function Warn(g: Findings, message: string): Findings {
    if message in g.warnings then g else g.(limited := true, warnings := g.warnings + [message])
  }

  function WithSource(e: Address, s: Source): Address {
    if s in e.sources then e else e.(sources := e.sources + [s])
  }

  /** `record`. */
  function Record(g: Findings, address: string, s: Source): Findings {
    var told := g.(recorded := g.recorded + {(address, s)});
    if address in g.addresses && g.addresses[address] < |g.emails| then
      var position := g.addresses[address];
      told.(emails := g.emails[position := WithSource(g.emails[position], s)])
    else if |g.emails| >= g.maxEmails then Warn(told, EMAIL_LIMIT)
    else told.(addresses := g.addresses[address := |g.emails|], emails := g.emails + [Address(address, [s])])
  }

  /** The report says that `address` was found in `s`. */
  predicate Tells(emails: seq<Address>, address: string, s: Source) {
    exists e | e in emails :: e.address == address && s in e.sources
  }

  ghost predicate IndexIsExact(g: Findings) {
    && (forall a | a in g.addresses :: g.addresses[a] < |g.emails| && g.emails[g.addresses[a]].address == a)
    && (forall i | 0 <= i < |g.emails| :: g.emails[i].address in g.addresses && g.addresses[g.emails[i].address] == i)
  }

  ghost predicate SourcesDiffer(e: Address) {
    forall i, j | 0 <= i < j < |e.sources| :: e.sources[i] != e.sources[j]
  }

  /** The report holds what was recorded, and only that; an address is missing only behind the limit. */
  ghost predicate IsFaithful(g: Findings) {
    && (forall i, s | 0 <= i < |g.emails| && s in g.emails[i].sources :: (g.emails[i].address, s) in g.recorded)
    && (forall a, s | (a, s) in g.recorded ::
          if a in g.addresses && g.addresses[a] < |g.emails| then s in g.emails[g.addresses[a]].sources else EMAIL_LIMIT in g.warnings)
  }

  ghost predicate Inv(g: Findings) {
    && IndexIsExact(g) && IsFaithful(g)
    && |g.emails| <= g.maxEmails
    && (EMAIL_LIMIT in g.warnings ==> |g.emails| == g.maxEmails)
    && (forall e | e in g.emails :: SourcesDiffer(e))
    && (g.limited <==> g.warnings != [])
  }

  lemma WarnKeeps(g: Findings, message: string)
    requires Inv(g) && (message == EMAIL_LIMIT ==> |g.emails| == g.maxEmails)
    ensures Inv(Warn(g, message)) && message in Warn(g, message).warnings && Warn(g, message).limited
    ensures forall m :: m in Warn(g, message).warnings <==> m in g.warnings || m == message
  {
    var next := Warn(g, message);
    assert next.warnings != g.warnings ==> next.warnings[|g.warnings|] == message;
  }

  lemma RecordKnownKeeps(g: Findings, address: string, s: Source)
    requires Inv(g) && address in g.addresses
    ensures Inv(Record(g, address, s))
  {
    var next, position := Record(g, address, s), g.addresses[address];
    var before, after := g.emails[position], next.emails[position];
    assert s in after.sources && (forall t :: t in after.sources <==> t in before.sources || t == s) by {
      assert after.sources != before.sources ==> after.sources[|before.sources|] == s;
    }
    assert before in g.emails && SourcesDiffer(after);
    forall e | e in next.emails
      ensures SourcesDiffer(e)
    {
      var i :| 0 <= i < |next.emails| && next.emails[i] == e;
      assert i != position ==> g.emails[i] in g.emails;
    }
  }

  lemma RecordNewKeeps(g: Findings, address: string, s: Source)
    requires Inv(g) && address !in g.addresses
    ensures Inv(Record(g, address, s))
  {
    var next := Record(g, address, s);
    if |g.emails| >= g.maxEmails {
      assert next.warnings != g.warnings ==> next.warnings[|g.warnings|] == EMAIL_LIMIT;
    } else {
      assert forall e :: e in next.emails <==> e in g.emails || e == Address(address, [s]);
    }
  }

  lemma RecordKeeps(g: Findings, address: string, s: Source)
    requires Inv(g)
    ensures Inv(Record(g, address, s)) && (address, s) in Record(g, address, s).recorded
  {
    if address in g.addresses {
      RecordKnownKeeps(g, address, s);
    } else {
      RecordNewKeeps(g, address, s);
    }
  }

  function RecordAll(g: Findings, pairs: seq<(string, Source)>): Findings {
    if pairs == [] then g
    else
      var last := pairs[|pairs| - 1];
      Record(RecordAll(g, pairs[..|pairs| - 1]), last.0, last.1)
  }

  lemma {:induction false} RecordAllRecords(g: Findings, pairs: seq<(string, Source)>)
    ensures forall p :: p in RecordAll(g, pairs).recorded <==> p in g.recorded || p in pairs
  {
    if pairs != [] {
      RecordAllRecords(g, pairs[..|pairs| - 1]);
      assert pairs == pairs[..|pairs| - 1] + [pairs[|pairs| - 1]];
    }
  }

  lemma {:induction false} RecordAllIsOk(g: Findings, pairs: seq<(string, Source)>)
    requires Inv(g)
    ensures Inv(RecordAll(g, pairs)) && RecordAll(g, pairs).maxEmails == g.maxEmails
  {
    if pairs != [] {
      var last := pairs[|pairs| - 1];
      RecordAllIsOk(g, pairs[..|pairs| - 1]);
      RecordKeeps(RecordAll(g, pairs[..|pairs| - 1]), last.0, last.1);
    }
  }

  lemma RecordAllKeeps(g: Findings, pairs: seq<(string, Source)>)
    requires Inv(g)
    ensures Inv(RecordAll(g, pairs)) && RecordAll(g, pairs).maxEmails == g.maxEmails
    ensures forall m | m in RecordAll(g, pairs).warnings :: m in g.warnings || m == EMAIL_LIMIT
    ensures forall p :: p in RecordAll(g, pairs).recorded <==> p in g.recorded || p in pairs
  {
    RecordAllIsOk(g, pairs);
    RecordAllRecords(g, pairs);
    RecordAllWarns(g, pairs);
  }

  lemma {:induction false} RecordAllWarns(g: Findings, pairs: seq<(string, Source)>)
    ensures forall m | m in RecordAll(g, pairs).warnings :: m in g.warnings || m == EMAIL_LIMIT
  {
    if pairs != [] {
      RecordAllWarns(g, pairs[..|pairs| - 1]);
    }
  }

  lemma TellsIsRecorded(g: Findings, a: string, s: Source)
    requires Inv(g)
    ensures Tells(g.emails, a, s) ==> (a, s) in g.recorded
    ensures (a, s) in g.recorded && EMAIL_LIMIT !in g.warnings ==> Tells(g.emails, a, s)
    ensures (a, s) in g.recorded && a in g.addresses ==> Tells(g.emails, a, s)
  {
    if (a, s) in g.recorded && a in g.addresses {
      assert g.emails[g.addresses[a]] in g.emails;
    }
  }

  predicate AddressOrder(a: Address, b: Address) {
    !Less(b.address, a.address)
  }

  predicate SourceOrder(a: Source, b: Source) {
    if a.url == b.url then !Less(b.foundIn, a.foundIn) else Less(a.url, b.url)
  }

  lemma NotLessIsAnOrder(a: string, b: string, c: string)
    ensures !Less(a, b) || !Less(b, a)
    ensures !Less(b, a) && !Less(c, b) ==> !Less(c, a)
  {
    LessIsTotal(a, b);
    LessIsTotal(b, c);
    LessIsTotal(a, c);
    if Less(a, b) && Less(b, c) {
      LessIsTransitive(a, b, c);
    }
  }

  lemma AddressesAreOrdered()
    ensures IsTotalOrder(AddressOrder)
  {
    forall a: Address, b: Address
      ensures AddressOrder(a, b) || AddressOrder(b, a)
    {
      NotLessIsAnOrder(a.address, b.address, b.address);
    }
    forall a: Address, b: Address, c: Address | AddressOrder(a, b) && AddressOrder(b, c)
      ensures AddressOrder(a, c)
    {
      NotLessIsAnOrder(a.address, b.address, c.address);
    }
  }

  lemma SourcesAreOrdered()
    ensures IsTotalOrder(SourceOrder)
  {
    forall a: Source, b: Source
      ensures SourceOrder(a, b) || SourceOrder(b, a)
    {
      LessIsTotal(a.url, b.url);
      LessIsTotal(a.foundIn, b.foundIn);
    }
    forall a: Source, b: Source, c: Source | SourceOrder(a, b) && SourceOrder(b, c)
      ensures SourceOrder(a, c)
    {
      LessIsTotal(a.url, b.url);
      LessIsTotal(a.url, c.url);
      NotLessIsAnOrder(a.foundIn, b.foundIn, c.foundIn);
      if a.url != b.url && b.url != c.url {
        LessIsTransitive(a.url, b.url, c.url);
      }
    }
  }

  /** Every address's sources, sorted. */
  function SortSources(emails: seq<Address>): (r: seq<Address>)
    ensures |r| == |emails|
    ensures forall i | 0 <= i < |r| :: r[i].address == emails[i].address && SortedBy(r[i].sources, SourceOrder) && multiset(r[i].sources) == multiset(emails[i].sources)
  {
    SourcesAreOrdered();
    seq(|emails|, i requires 0 <= i < |emails| => Address(emails[i].address, Sort(emails[i].sources, SourceOrder)))
  }

  /** The addresses of a finished report. */
  function Sorted(emails: seq<Address>): seq<Address> {
    AddressesAreOrdered();
    SortSources(Sort(emails, AddressOrder))
  }

  ghost predicate IsSorted(emails: seq<Address>) {
    && SortedBy(emails, AddressOrder)
    && forall e | e in emails :: SortedBy(e.sources, SourceOrder)
  }

  lemma SameEntries(a: seq<Address>, b: seq<Address>)
    requires multiset(a) == multiset(b)
    ensures forall e :: e in a <==> e in b
  {
    forall e: Address
      ensures e in a <==> e in b
    {
      assert e in a <==> e in multiset(a);
      assert e in b <==> e in multiset(b);
    }
  }

  lemma SortSourcesTellsTheSame(emails: seq<Address>, a: string, s: Source)
    ensures Tells(SortSources(emails), a, s) <==> Tells(emails, a, s)
  {
    var sorted := SortSources(emails);
    forall i | 0 <= i < |emails|
      ensures s in sorted[i].sources <==> s in emails[i].sources
    {
      assert s in sorted[i].sources <==> s in multiset(sorted[i].sources);
      assert s in emails[i].sources <==> s in multiset(emails[i].sources);
    }
    if Tells(emails, a, s) {
      var e :| e in emails && e.address == a && s in e.sources;
      var i :| 0 <= i < |emails| && emails[i] == e;
      assert sorted[i] in sorted;
    }
  }

  /** Sorting tells the same story. */
  lemma SortedTellsTheSame(emails: seq<Address>, a: string, s: Source)
    ensures Tells(Sorted(emails), a, s) <==> Tells(emails, a, s)
  {
    AddressesAreOrdered();
    SameEntries(Sort(emails, AddressOrder), emails);
    SortSourcesTellsTheSame(Sort(emails, AddressOrder), a, s);
  }

  lemma SortedIsSorted(emails: seq<Address>)
    ensures IsSorted(Sorted(emails)) && |Sorted(emails)| == |emails|
  {
    AddressesAreOrdered();
    var once := Sort(emails, AddressOrder);
    var twice := Sorted(emails);
    assert |multiset(once)| == |once| && |multiset(emails)| == |emails|;
    forall i, j | 0 <= i < j < |twice|
      ensures AddressOrder(twice[i], twice[j])
    {
      assert AddressOrder(once[i], once[j]);
    }
  }

  /** One entry per address is kept by the sort. */
  lemma SortedNamesEachOnce(g: Findings)
    requires Inv(g)
    ensures var emails := Sorted(g.emails);
            forall i, j | 0 <= i < j < |emails| :: Less(emails[i].address, emails[j].address)
  {
    AddressesAreOrdered();
    var once := Sort(g.emails, AddressOrder);
    forall i, j | 0 <= i < j < |once|
      ensures Less(once[i].address, once[j].address)
    {
      assert AddressOrder(once[i], once[j]);
      LessIsTotal(once[i].address, once[j].address);
      if once[i].address == once[j].address {
        assert once[i] in multiset(once) && once[j] in multiset(once);
        OneEntryPerAddress(g, once[i], once[j]);
        TwiceIsTwo(once, i, j);
        OnceIsOne(g, once[i]);
      }
    }
  }

  lemma OneEntryPerAddress(g: Findings, a: Address, b: Address)
    requires Inv(g) && a in g.emails && b in g.emails && a.address == b.address
    ensures a == b
  {
  }

  lemma OnceIsOne(g: Findings, e: Address)
    requires Inv(g) && e in g.emails
    ensures multiset(g.emails)[e] == 1
  {
    var k :| 0 <= k < |g.emails| && g.emails[k] == e;
    assert g.emails == g.emails[..k] + [e] + g.emails[k + 1..];
    assert e !in g.emails[..k] && e !in g.emails[k + 1..];
  }

  lemma TwiceIsTwo(items: seq<Address>, i: nat, j: nat)
    requires i < j < |items| && items[i] == items[j]
    ensures multiset(items)[items[i]] >= 2
  {
    assert items == items[..j] + [items[j]] + items[j + 1..];
    assert items[i] in items[..j];
  }
}
