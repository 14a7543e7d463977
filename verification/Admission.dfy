// app/agent_context.py: the share of the request that each tool result gets, and the
// admission of the final prompt. Sizes are those of canonical JSON in UTF-8.
module Admission {
  import opened Prelude
  import opened Utf8
  import opened Dict
  import opened Canonical
  import opened CanonicalSize

  const INPUT_LIMIT := 16000
  const OUTPUT_LIMIT := 4096
  const WIRE_RESERVE := 2048

  // The artifact store, as far as admission uses it: the id a value is stored under, and
  // the value behind a reference.
  datatype Store = Store(write: Json -> string, read: string -> Json)

  function Bytes(v: Json): nat {
    ByteLen(CanonicalJson(v))
  }

  // input_upper_bound: one token a byte, the schema twice, and the envelopes.
  function UpperBound(body: Members, schemaBytes: nat): nat {
    Bytes(Obj(body)) + 2 * schemaBytes + WIRE_RESERVE
  }

  // ---------- Stubs ----------

  // A tool result set aside: the item with a stub for its data, and the data itself.
  datatype Taken = Taken(item: Members, stub: Members, value: Json)

  function Field(ms: Members, key: string): Json {
    match Get(ms, key) case Some(v) => v case None => Null
  }

  function StubOf(artifact: string): Members {
    [("partial", Bool(true)), ("context_reference", Str(artifact))]
  }

  // The reference a result already carries, if this request issued it.
  function IssuedReference(value: Json, issued: set<string>): Option<string> {
    if value.Obj? && Field(value.members, "context_reference").Str? && Field(value.members, "context_reference").s in issued
    then Some(Field(value.members, "context_reference").s) else None
  }

  function TakeOne(store: Store, issued: set<string>, item: Members): (Taken, set<string>) {
    var value := Field(item, "data");
    match IssuedReference(value, issued)
    case Some(id) => (Taken(Put(item, "data", Obj(StubOf(id))), StubOf(id), store.read(id)), issued)
    case None =>
      var id := store.write(value);
      (Taken(Put(item, "data", Obj(StubOf(id))), StubOf(id), value), issued + {id})
  }

  // One result after another, with the references issued so far.
  function TakeEach(take: (set<string>, Members) -> (Taken, set<string>), issued: set<string>, items: seq<Members>): (r: seq<Taken>)
    ensures |r| == |items|
    decreases |items|
  {
    if items == [] then []
    else
      var (taken, more) := take(issued, items[0]);
      [taken] + TakeEach(take, more, items[1..])
  }

  function Taker(store: Store): (set<string>, Members) -> (Taken, set<string>) {
    (issued: set<string>, item: Members) => TakeOne(store, issued, item)
  }

  function TakeAll(store: Store, issued: set<string>, items: seq<Members>): (r: seq<Taken>)
    ensures |r| == |items|
  {
    TakeEach(Taker(store), issued, items)
  }

  lemma TakeNext(take: (set<string>, Members) -> (Taken, set<string>), issued: set<string>, items: seq<Members>, i: nat)
    requires i < |items|
    ensures var (one, more) := take(issued, items[i]);
      TakeEach(take, issued, items[i..]) == [one] + TakeEach(take, more, items[i + 1..])
  {
    assert items[i..][0] == items[i] && items[i..][1..] == items[i + 1..];
  }

  // ---------- Pages ----------

  function PathOf(entry: Json): string {
    if entry.Obj? && Field(entry.members, "path").Str? then Field(entry.members, "path").s else ""
  }

  function Slashes(path: string): nat {
    if path == [] then 0 else Slashes(path[1..]) + if path[0] == '/' then 1 else 0
  }

  predicate Before(x: Json, y: Json) {
    var (p, q) := (PathOf(x), PathOf(y));
    if Slashes(p) != Slashes(q) then Slashes(p) < Slashes(q)
    else if |p| != |q| then |p| < |q|
    else Ordering.Less(p, q)
  }

  function Place(x: Json, files: seq<Json>): (r: seq<Json>)
    ensures multiset(r) == multiset(files) + multiset{x}
  {
    if files == [] || !Before(files[0], x) then [x] + files
    else
      assert files == [files[0]] + files[1..];
      [files[0]] + Place(x, files[1..])
  }

  // sorted(files, key=depth, length, path)
  function Ranked(files: seq<Json>): (r: seq<Json>)
    ensures multiset(r) == multiset(files)
  {
    if files == [] then []
    else
      assert files == [files[0]] + files[1..];
      Place(files[0], Ranked(files[1..]))
  }

  lemma BeforeTotal(x: Json, y: Json)
    ensures Before(x, y) ==> !Before(y, x)
  {
    Ordering.LessIrreflexive(PathOf(x));
    if Ordering.Less(PathOf(x), PathOf(y)) && Ordering.Less(PathOf(y), PathOf(x)) {
      Ordering.LessTransitive(PathOf(x), PathOf(y), PathOf(x));
    }
  }

  lemma NotAfterTransitive(x: Json, y: Json, z: Json)
    requires !Before(y, x) && !Before(z, y)
    ensures !Before(z, x)
  {
    var (p, q, r) := (PathOf(x), PathOf(y), PathOf(z));
    if Before(z, x) {
      Ordering.LessTotal(p, q);
      Ordering.LessTotal(q, r);
      if Ordering.Less(p, q) && Ordering.Less(q, r) {
        Ordering.LessTransitive(p, q, r);
      }
      BeforeTotal(z, x);
      BeforeTotal(x, z);
    }
  }

  predicate InRank(files: seq<Json>) {
    forall i, j | 0 <= i < j < |files| :: !Before(files[j], files[i])
  }

  lemma {:induction false} PlaceInRank(x: Json, files: seq<Json>)
    requires InRank(files)
    ensures InRank(Place(x, files))
  {
    if files == [] || !Before(files[0], x) {
      forall j | 0 <= j < |files| ensures !Before(files[j], x) {
        if j > 0 {
          NotAfterTransitive(x, files[0], files[j]);
        }
      }
    } else {
      PlaceInRank(x, files[1..]);
      var rest := Place(x, files[1..]);
      forall j | 0 <= j < |rest| ensures !Before(rest[j], files[0]) {
        assert rest[j] in multiset(rest);
        if rest[j] == x {
          BeforeTotal(files[0], x);
        } else {
          assert rest[j] in multiset(files[1..]);
          assert rest[j] in files[1..];
        }
      }
    }
  }

  // Shallower paths first, then shorter ones, then by name: the same files, in rank.
  lemma {:induction false} RankedInRank(files: seq<Json>)
    ensures multiset(Ranked(files)) == multiset(files) && InRank(Ranked(files))
  {
    if files != [] {
      RankedInRank(files[1..]);
      PlaceInRank(files[0], Ranked(files[1..]));
    }
  }

  function WithFiles(page: Members, files: seq<Json>): Members {
    Put(page, "files", Arr(files))
  }

  predicate FilesFit(head: Members, files: seq<Json>, k: nat, limit: nat)
    requires k <= |files|
  {
    Bytes(Obj(WithFiles(head, files[..k]))) <= limit
  }

  // As many files as fit, in order, from those shown already.
  function Fill(page: Members, files: seq<Json>, shown: nat, limit: nat): (k: nat)
    requires shown <= |files|
    ensures shown <= k <= |files|
    decreases |files| - shown
  {
    if shown < |files| && FilesFit(page, files, shown + 1, limit) then Fill(page, files, shown + 1, limit)
    else shown
  }

  function Page(stub: Members, value: Json, allowance: nat): Members {
    var limit := Bytes(Obj(stub)) + allowance;
    if value.Obj? && Field(value.members, "files").Arr? then
      var files := Ranked(Field(value.members, "files").items);
      var head := Put(Put(stub, "query", Field(value.members, "query")), "matches", Field(value.members, "matches"));
      WithFiles(head, files[..Fill(head, files, 0, limit)])
    else if value.Obj? && Field(value.members, "goal").Str? then Put(stub, "goal", Str(Excerpt(Field(value.members, "goal").s, 180)))
    else Put(stub, "excerpt", Str(Excerpt(CanonicalJson(value), if allowance >= 25 then allowance - 25 else 0)))
  }

  function FittingPage(stub: Members, value: Json, allowance: nat): Members {
    var page := Page(stub, value, allowance);
    if Bytes(Obj(page)) > Bytes(Obj(stub)) + allowance then stub else page
  }

  // ---------- The request ----------

  function Objects(items: seq<Members>): (r: seq<Json>)
    ensures |r| == |items| && forall i | 0 <= i < |r| :: r[i] == Obj(items[i])
  {
    if items == [] then [] else [Obj(items[0])] + Objects(items[1..])
  }

  function Stubbed(taken: seq<Taken>): (r: seq<Members>)
    ensures |r| == |taken| && forall i | 0 <= i < |r| :: r[i] == taken[i].item
  {
    if taken == [] then [] else [taken[0].item] + Stubbed(taken[1..])
  }

  function PagedItem(taken: Taken, allowance: nat): Members {
    Put(taken.item, "data", Obj(FittingPage(taken.stub, taken.value, allowance)))
  }

  function Paged(taken: seq<Taken>, allowance: nat): (r: seq<Members>)
    ensures |r| == |taken| && forall i | 0 <= i < |r| :: r[i] == PagedItem(taken[i], allowance)
  {
    if taken == [] then [] else [PagedItem(taken[0], allowance)] + Paged(taken[1..], allowance)
  }

  function BodyOf(body: Members, items: seq<Members>): Members {
    Put(body, "tool_results", Arr(Objects(items)))
  }

  function Allowance(bound: nat, n: nat): nat
    requires n > 0
  {
    (if INPUT_LIMIT - bound - 100 > 0 then INPUT_LIMIT - bound - 100 else 0) / n
  }

  function Shared(body: Members, items: seq<Members>, store: Store, issued: set<string>, schemaBytes: nat): seq<Members> {
    if items == [] then []
    else
      var taken := TakeAll(store, issued, items);
      Paged(taken, Allowance(UpperBound(BodyOf(body, Stubbed(taken)), schemaBytes), |items|))
  }

  // The prompt under construction: its other fields, and the tool results, whose data
  // are replaced in place.
  class Draft {
    var body: Members
    var results: seq<Members>

    constructor (body: Members, results: seq<Members>)
      ensures this.body == body && this.results == results
    {
      this.body := body;
      this.results := results;
    }

    // Every result's data is set aside and replaced by a stub.
    method SetAside(store: Store, issued: set<string>) returns (taken: seq<Taken>)
      modifies this
      ensures taken == TakeAll(store, issued, old(results))
      ensures body == old(body) && results == Stubbed(taken)
    {
      ghost var given := results;
      var take := Taker(store);
      ghost var all := TakeEach(take, issued, given);
      var known := issued;
      taken := [];
      for i := 0 to |results|
        invariant |results| == |given| && body == old(body) && |taken| == i
        invariant forall k | i <= k < |given| :: results[k] == given[k]
        invariant all == taken + TakeEach(take, known, given[i..])
        invariant forall k | 0 <= k < i :: results[k] == taken[k].item
      {
        TakeNext(take, known, given, i);
        var (one, more) := take(known, results[i]);
        assert taken + ([one] + TakeEach(take, more, given[i + 1..])) == taken + [one] + TakeEach(take, more, given[i + 1..]);
        taken := taken + [one];
        known := more;
        results := results[i := one.item];
      }
    }

    // Every stub is replaced by the page that fits its share.
    method FillPages(taken: seq<Taken>, allowance: nat)
      requires results == Stubbed(taken)
      modifies this
      ensures body == old(body) && results == Paged(taken, allowance)
    {
      for i := 0 to |results|
        invariant |results| == |taken| && body == old(body)
        invariant forall k | 0 <= k < i :: results[k] == PagedItem(taken[k], allowance)
        invariant forall k | i <= k < |taken| :: results[k] == taken[k].item
      {
        var page := FittingPage(taken[i].stub, taken[i].value, allowance);
        results := results[i := Put(results[i], "data", Obj(page))];
      }
    }

    method ShareEvidence(store: Store, issued: set<string>, schemaBytes: nat)
      requires results != []
      modifies this
      ensures body == old(body) && results == Shared(old(body), old(results), store, issued, schemaBytes)
    {
      var taken := SetAside(store, issued);
      FillPages(taken, Allowance(UpperBound(BodyOf(body, results), schemaBytes), |results|));
    }
  }

  // ---------- What a page takes ----------

  lemma BytesIsSize(v: Json)
    ensures Bytes(v) == Size(v)
  {
    SizeIsCanonical(v);
  }

  lemma AddedSize(d: Members, k: string, v: Json)
    requires d != [] && Get(d, k).None?
    ensures Size(Obj(Put(d, k, v))) >= Size(Obj(d)) && Put(d, k, v) != []
  {
    PutSum(d, k, v);
  }

  lemma FilesSize(stub: Members, query: Json, matches: Json, files: seq<Json>)
    requires stub != [] && Get(stub, "query").None? && Get(stub, "matches").None? && Get(stub, "files").None?
    ensures Size(Obj(WithFiles(Put(Put(stub, "query", query), "matches", matches), files))) >= Size(Obj(stub))
  {
    var one := Put(stub, "query", query);
    AddedSize(stub, "query", query);
    PutGet(stub, "query", query, "matches");
    PutGet(stub, "query", query, "files");
    var two := Put(one, "matches", matches);
    AddedSize(one, "matches", matches);
    PutGet(one, "matches", matches, "files");
    AddedSize(two, "files", Arr(files));
  }

  predicate Plain(stub: Members) {
    stub != [] && Get(stub, "query").None? && Get(stub, "matches").None? && Get(stub, "files").None?
    && Get(stub, "goal").None? && Get(stub, "excerpt").None?
  }

  lemma StubIsPlain(artifact: string)
    ensures Plain(StubOf(artifact))
  {
    assert StubOf(artifact)[1..] == [("context_reference", Str(artifact))];
    assert StubOf(artifact)[1..][1..] == [];
  }

  lemma PageGrows(stub: Members, value: Json, allowance: nat)
    requires Plain(stub)
    ensures Size(Obj(Page(stub, value, allowance))) >= Size(Obj(stub))
  {
    if value.Obj? && Field(value.members, "files").Arr? {
      var head := Put(Put(stub, "query", Field(value.members, "query")), "matches", Field(value.members, "matches"));
      var files := Ranked(Field(value.members, "files").items);
      FilesSize(stub, Field(value.members, "query"), Field(value.members, "matches"),
                files[..Fill(head, files, 0, Bytes(Obj(stub)) + allowance)]);
    } else if value.Obj? && Field(value.members, "goal").Str? {
      AddedSize(stub, "goal", Str(Excerpt(Field(value.members, "goal").s, 180)));
    } else {
      AddedSize(stub, "excerpt", Str(Excerpt(CanonicalJson(value), if allowance >= 25 then allowance - 25 else 0)));
    }
  }

  // A page is never smaller than its stub, and never larger than its share allows.
  lemma PageWithinShare(stub: Members, value: Json, allowance: nat)
    requires Plain(stub)
    ensures Size(Obj(stub)) <= Size(Obj(FittingPage(stub, value, allowance))) <= Size(Obj(stub)) + allowance
  {
    PageGrows(stub, value, allowance);
    BytesIsSize(Obj(stub));
    BytesIsSize(Obj(Page(stub, value, allowance)));
  }

  // ---------- What the request takes ----------

  // A result set aside carries its plain stub as its data.
  predicate SetAsideOk(t: Taken) {
    Get(t.item, "data") == Some(Obj(t.stub)) && Plain(t.stub)
  }

  lemma TakenOk(store: Store, issued: set<string>, item: Members)
    ensures SetAsideOk(TakeOne(store, issued, item).0)
  {
    var t := TakeOne(store, issued, item).0;
    var value := Field(item, "data");
    var id := if IssuedReference(value, issued).Some? then IssuedReference(value, issued).value else store.write(value);
    assert t.stub == StubOf(id);
    StubIsPlain(id);
    PutGet(item, "data", Obj(t.stub), "data");
  }

  lemma {:induction false} AllTakenOk(store: Store, issued: set<string>, items: seq<Members>)
    ensures forall t | t in TakeAll(store, issued, items) :: SetAsideOk(t)
    decreases |items|
  {
    if items != [] {
      TakenOk(store, issued, items[0]);
      var (one, more) := TakeOne(store, issued, items[0]);
      AllTakenOk(store, more, items[1..]);
      assert TakeAll(store, issued, items) == [one] + TakeAll(store, more, items[1..]);
    }
  }

  lemma PagedItemSize(t: Taken, allowance: nat)
    requires SetAsideOk(t)
    ensures Size(Obj(t.item)) <= Size(Obj(PagedItem(t, allowance))) <= Size(Obj(t.item)) + allowance
  {
    PageWithinShare(t.stub, t.value, allowance);
    PutSize(t.item, "data", Obj(FittingPage(t.stub, t.value, allowance)));
  }

  lemma {:induction false} PagedSum(taken: seq<Taken>, allowance: nat)
    requires forall t | t in taken :: SetAsideOk(t)
    ensures ItemsSum(Objects(Stubbed(taken))) <= ItemsSum(Objects(Paged(taken, allowance)))
         <= ItemsSum(Objects(Stubbed(taken))) + |taken| * allowance
  {
    if taken != [] {
      PagedItemSize(taken[0], allowance);
      PagedSum(taken[1..], allowance);
      assert Stubbed(taken)[1..] == Stubbed(taken[1..]);
      assert Paged(taken, allowance)[1..] == Paged(taken[1..], allowance);
      ObjectsTail(Stubbed(taken));
      ObjectsTail(Paged(taken, allowance));
      Distribute(|taken| - 1, allowance);
    }
  }

  lemma Distribute(n: nat, allowance: nat)
    ensures (n + 1) * allowance == n * allowance + allowance
  {
  }

  lemma ObjectsTail(items: seq<Members>)
    requires items != []
    ensures ItemsSum(Objects(items)) == Size(Obj(items[0])) + 1 + ItemsSum(Objects(items[1..]))
  {
    assert Objects(items)[1..] == Objects(items[1..]);
  }

  // Two values for one key: the object's sizes differ as the values' do.
  lemma PutDifference(d: Members, k: string, v: Json, w: Json)
    ensures Size(Obj(Put(d, k, v))) + Size(w) == Size(Obj(Put(d, k, w))) + Size(v)
  {
    PutSum(d, k, v);
    PutSum(d, k, w);
    assert Put(d, k, v) != [] && Put(d, k, w) != [];
  }

  // The bound with every result reduced to its stub, and after the shares are filled.
  function StubBound(body: Members, items: seq<Members>, store: Store, issued: set<string>, schemaBytes: nat): nat {
    UpperBound(BodyOf(body, Stubbed(TakeAll(store, issued, items))), schemaBytes)
  }

  function FilledBound(body: Members, items: seq<Members>, store: Store, issued: set<string>, schemaBytes: nat): nat {
    UpperBound(BodyOf(body, Shared(body, items, store, issued, schemaBytes)), schemaBytes)
  }

  lemma SharesAddUp(bound: nat, n: nat)
    requires n > 0
    ensures n * Allowance(bound, n) <= if INPUT_LIMIT - bound - 100 > 0 then INPUT_LIMIT - bound - 100 else 0
  {
  }

  lemma PagedBody(body: Members, taken: seq<Taken>, allowance: nat)
    requires taken != [] && forall t | t in taken :: SetAsideOk(t)
    ensures Bytes(Obj(BodyOf(body, Stubbed(taken)))) <= Bytes(Obj(BodyOf(body, Paged(taken, allowance))))
         <= Bytes(Obj(BodyOf(body, Stubbed(taken)))) + |taken| * allowance
  {
    PagedSum(taken, allowance);
    PutDifference(body, "tool_results", Arr(Objects(Stubbed(taken))), Arr(Objects(Paged(taken, allowance))));
    BytesIsSize(Obj(BodyOf(body, Stubbed(taken))));
    BytesIsSize(Obj(BodyOf(body, Paged(taken, allowance))));
  }

  // Filling every share keeps the request within the limit, with 100 bytes to spare,
  // unless the stubs alone already exceed that; so it fits exactly when the stubs do.
  lemma FillingFitsIffStubsFit(body: Members, items: seq<Members>, store: Store, issued: set<string>, schemaBytes: nat)
    requires items != []
    ensures var (stub, filled) := (StubBound(body, items, store, issued, schemaBytes), FilledBound(body, items, store, issued, schemaBytes));
      stub <= filled && (filled <= INPUT_LIMIT - 100 || filled == stub) && (filled <= INPUT_LIMIT <==> stub <= INPUT_LIMIT)
  {
    var taken := TakeAll(store, issued, items);
    var bound := StubBound(body, items, store, issued, schemaBytes);
    AllTakenOk(store, issued, items);
    PagedBody(body, taken, Allowance(bound, |items|));
    SharesAddUp(bound, |items|);
  }

  // ---------- The files of a page ----------

  lemma {:induction false} PrefixSum(files: seq<Json>, j: nat, k: nat)
    requires j <= k <= |files|
    ensures ItemsSum(files[..j]) <= ItemsSum(files[..k])
  {
    if j > 0 {
      assert files[..j][1..] == files[1..][..j - 1] && files[..k][1..] == files[1..][..k - 1];
      PrefixSum(files[1..], j - 1, k - 1);
    }
  }

  lemma MoreFilesTakeMore(head: Members, files: seq<Json>, j: nat, k: nat)
    requires j <= k <= |files|
    ensures Bytes(Obj(WithFiles(head, files[..j]))) <= Bytes(Obj(WithFiles(head, files[..k])))
  {
    PrefixSum(files, j, k);
    OneItem(files[..k]);
    PutDifference(head, "files", Arr(files[..j]), Arr(files[..k]));
    BytesIsSize(Obj(WithFiles(head, files[..j])));
    BytesIsSize(Obj(WithFiles(head, files[..k])));
  }

  lemma OneItem(items: seq<Json>)
    ensures items != [] ==> ItemsSum(items) >= 1
  {
  }

  // Taking files while they fit shows the longest prefix of the ranking that fits: no
  // longer one would, although only the next is ever tried.
  lemma {:induction false} FillIsLongest(head: Members, files: seq<Json>, shown: nat, limit: nat)
    requires shown <= |files|
    ensures var k := Fill(head, files, shown, limit);
      (k > shown ==> FilesFit(head, files, k, limit)) && forall j | k < j <= |files| :: !FilesFit(head, files, j, limit)
    decreases |files| - shown
  {
    if shown < |files| && FilesFit(head, files, shown + 1, limit) {
      FillIsLongest(head, files, shown + 1, limit);
    } else {
      forall j | shown < j <= |files| ensures !FilesFit(head, files, j, limit) {
        MoreFilesTakeMore(head, files, shown + 1, j);
      }
    }
  }

  // ---------- Admission ----------

  datatype Ledger = Ledger(inputLimit: int, inputUsed: int, outputLimit: int, outputUsed: int)
  datatype Receipt = Receipt(bound: nat, outputLimit: int, admitted: bool)
  datatype AdmissionError = TooLarge | BudgetExceeded

  function Left(limit: int, used: int): int {
    if limit - used > 0 then limit - used else 0
  }

  // The end of admit_prompt: the receipt that is journaled, and the refusals.
  method Admit(body: Members, schemaBytes: nat, ledger: Ledger) returns (receipt: Receipt, r: Result<string, AdmissionError>)
    ensures receipt.admitted <==> r.Ok?
    ensures r == Err(TooLarge) <==> UpperBound(body, schemaBytes) > INPUT_LIMIT
    ensures r.Ok? <==>
      UpperBound(body, schemaBytes) <= INPUT_LIMIT
      && ledger.inputUsed + UpperBound(body, schemaBytes) <= ledger.inputLimit && ledger.outputUsed < ledger.outputLimit
    ensures r.Ok? ==> r.value == CanonicalJson(Obj(body)) && receipt.bound == UpperBound(body, schemaBytes)
    ensures r.Ok? ==> 0 < receipt.outputLimit <= OUTPUT_LIMIT && ledger.outputUsed + receipt.outputLimit <= ledger.outputLimit
  {
    var result := CanonicalJson(Obj(body));
    var bound := ByteLen(result) + 2 * schemaBytes + WIRE_RESERVE;
    var input := Left(ledger.inputLimit, ledger.inputUsed);
    var output := Left(ledger.outputLimit, ledger.outputUsed);
    var least := if INPUT_LIMIT <= input then INPUT_LIMIT else input;
    receipt := Receipt(bound, if OUTPUT_LIMIT <= output then OUTPUT_LIMIT else output, bound <= least && output > 0);
    if bound > INPUT_LIMIT {
      return receipt, Err(TooLarge);
    }
    if !receipt.admitted {
      return receipt, Err(BudgetExceeded);
    }
    return receipt, Ok(result);
  }
}
