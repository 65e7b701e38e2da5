/** Public IP addresses, handed out from a package-level uint32 counter. */
module PublicIp {
  import opened Text
  import opened Decimal

  const WORD := 0x1_0000_0000

  const ADDRESSES := 65536

  // nextIP's text for a counter value.
  function Address(n: nat): string {
    "20.0." + Digits((n / 256) % 256) + "." + Digits(n % 256)
  }

  // ---- Addresses and counter values ----

  lemma {:induction false} NoDot(n: nat)
    ensures '.' !in Digits(n)
  {
    if n >= 10 { NoDot(n / 10); }
  }

  lemma AddressPieces(n: nat)
    ensures Split(Address(n), '.') == ["20", "0", Digits((n / 256) % 256), Digits(n % 256)]
  {
    var a, b := Digits((n / 256) % 256), Digits(n % 256);
    NoDot((n / 256) % 256);
    NoDot(n % 256);
    hide Split, Digits;
    var head := "20" + "." + "0";
    SplitConcat("20", '.', "0");
    SplitAtom("20", '.');
    SplitAtom("0", '.');
    assert Address(n) == head + ['.'] + (a + ['.'] + b);
    SplitConcat(head, '.', a + ['.'] + b);
    SplitConcat(a, '.', b);
    SplitAtom(a, '.');
    SplitAtom(b, '.');
  }

  lemma LowHalf(n: nat)
    ensures n % ADDRESSES == (n / 256) % 256 * 256 + n % 256
  {
    var q, r := n / 256, n % 256;
    assert n == (q / 256) * ADDRESSES + (q % 256 * 256 + r);
    Remainder(q / 256, q % 256 * 256 + r);
  }

  lemma Remainder(q: nat, r: nat)
    requires r < ADDRESSES
    ensures (q * ADDRESSES + r) % ADDRESSES == r
  {
  }

  /** Two counter values print the same address exactly when they agree modulo 65536. */
  lemma SameAddressIff(m: nat, n: nat)
    ensures Address(m) == Address(n) <==> m % ADDRESSES == n % ADDRESSES
  {
    LowHalf(m);
    LowHalf(n);
    AddressPieces(m);
    AddressPieces(n);
    ValueOfDigits((m / 256) % 256);
    ValueOfDigits((n / 256) % 256);
    ValueOfDigits(m % 256);
    ValueOfDigits(n % 256);
    hide Split, Digits, Value;
    var ms, ns := Split(Address(m), '.'), Split(Address(n), '.');
    assert ms == ns <==> ms[2] == ns[2] && ms[3] == ns[3];
    if Address(m) == Address(n) { assert ms == ns; }
  }

  // The counter value of the k-th allocation after the counter stood at start.
  function Nth(start: nat, k: nat): nat {
    (start + k) % WORD
  }

  lemma NthStep(start: nat, k: nat)
    ensures (Nth(start, k) + 1) % WORD == Nth(start, k + 1)
  {
  }

  lemma WordWraps(x: nat)
    ensures (x % WORD) % ADDRESSES == x % ADDRESSES
  {
    assert x == x / WORD * 65536 * ADDRESSES + x % WORD;
  }

  lemma Congruent(start: nat, i: nat, j: nat)
    ensures (start + i) % ADDRESSES == (start + j) % ADDRESSES <==> i % ADDRESSES == j % ADDRESSES
  {
  }

  /** The i-th and the j-th allocation get the same address exactly when i and j agree
      modulo 65536, wherever the counter started and however often it wrapped. */
  lemma SameAllocationIff(start: nat, i: nat, j: nat)
    ensures Address(Nth(start, i)) == Address(Nth(start, j)) <==> i % ADDRESSES == j % ADDRESSES
  {
    SameAddressIff(Nth(start, i), Nth(start, j));
    WordWraps(start + i);
    WordWraps(start + j);
    Congruent(start, i, j);
    hide Address;
  }

  // ---- The handler as a state machine ----

  // A stored value: a public IP record with its address, or something without one.
  datatype Entry = Ip(address: string) | Foreign

  datatype State = State(counter: nat, store: map<string, Entry>)

  datatype Op = Put(key: string) | Remove(key: string)

  // The address a stored value carries; none reads as the empty string.
  function Existing(s: State, key: string): string {
    if key in s.store && s.store[key].Ip? then s.store[key].address else ""
  }

  predicate Allocates(s: State, op: Op) {
    op.Put? && Existing(s, op.key) == ""
  }

  function Step(s: State, op: Op): State {
    match op
    case Put(k) =>
      if Existing(s, k) != "" then s
      else
        var n := (s.counter + 1) % WORD;
        State(n, s.store[k := Ip(Address(n))])
    case Remove(k) => s.(store := s.store - {k})
  }

  class PublicIpHandler {
    var counter: nat
    var store: map<string, Entry>

    function Value(): State
      reads this
    {
      State(counter, store)
    }

    constructor ()
      ensures Value() == State(0, map[])
    {
      counter, store := 0, map[];
    }

    method NextIP() returns (address: string)
      modifies `counter
      ensures counter == (old(counter) + 1) % WORD && address == Address(counter)
    {
      counter := (counter + 1) % WORD;
      var high, low := (counter / 256) % 256, counter % 256;
      address := "20.0." + Digits(high) + "." + Digits(low);
    }

    method CreateOrUpdate(sub: string, rg: string, name: string) returns (created: bool)
      modifies this
      ensures Value() == Step(old(Value()), Put(KeyOf(sub, rg, name)))
      ensures created <==> KeyOf(sub, rg, name) !in old(store)
    {
      var k := KeyOf(sub, rg, name);
      var existing := "";
      created := true;
      if k in store {
        created := false;
        if store[k].Ip? { existing := store[k].address; }
      }
      var address := existing;
      if address == "" { address := NextIP(); }
      store := store[k := Ip(address)];
      assert old(Existing(Value(), k)) != "" ==> store == old(store);
    }

    method Delete(sub: string, rg: string, name: string) returns (found: bool)
      modifies `store
      ensures Value() == Step(old(Value()), Remove(KeyOf(sub, rg, name)))
      ensures found <==> KeyOf(sub, rg, name) in old(store)
    {
      var k := KeyOf(sub, rg, name);
      found := k in store;
      store := store - {k};
    }
  }

  function KeyOf(sub: string, rg: string, name: string): string {
    "publicip:" + sub + ":" + rg + ":" + name
  }

  // ---- Runs ----

  function Run(s: State, ops: seq<Op>): State {
    if ops == [] then s else Step(Run(s, ops[..|ops| - 1]), ops[|ops| - 1])
  }

  function Allocations(s: State, ops: seq<Op>): nat {
    if ops == [] then 0
    else
      var init := ops[..|ops| - 1];
      Allocations(s, init) + if Allocates(Run(s, init), ops[|ops| - 1]) then 1 else 0
  }

  // Which allocation each live record's address came from, counted from 1.
  function Births(s: State, ops: seq<Op>): map<string, nat> {
    if ops == [] then map[]
    else
      var init, op := ops[..|ops| - 1], ops[|ops| - 1];
      var births := Births(s, init);
      match op
      case Put(k) => if Allocates(Run(s, init), op) then births[k := Allocations(s, init) + 1] else births
      case Remove(k) => births - {k}
  }

  // A single process: nothing stored before its first operation.
  predicate Started(s: State) {
    s.store == map[] && s.counter < WORD
  }

  lemma AddressNotEmpty(n: nat)
    ensures Address(n) != ""
  {
    assert |Address(n)| >= 5;
  }

  ghost predicate Tracks(start: nat, allocations: nat, births: map<string, nat>, s: State) {
    && s.counter == Nth(start, allocations)
    && s.store.Keys == births.Keys
    && forall k :: k in births ==>
         0 < births[k] <= allocations && s.store[k] == Ip(Address(Nth(start, births[k])))
  }

  lemma TracksBirth(start: nat, allocations: nat, births: map<string, nat>, s: State, key: string)
    requires Tracks(start, allocations, births, s) && Allocates(s, Put(key))
    ensures Tracks(start, allocations + 1, births[key := allocations + 1], Step(s, Put(key)))
  {
    NthStep(start, allocations);
    hide Nth, Address;
  }

  lemma TracksRest(start: nat, allocations: nat, births: map<string, nat>, s: State, op: Op)
    requires Tracks(start, allocations, births, s) && !Allocates(s, op)
    ensures Tracks(start, allocations, if op.Put? then births else births - {op.key}, Step(s, op))
  {
    hide Nth, Address;
  }

  lemma {:induction false} RunTracks(s: State, ops: seq<Op>)
    requires Started(s)
    ensures Tracks(s.counter, Allocations(s, ops), Births(s, ops), Run(s, ops))
  {
    if ops != [] {
      var init, op := ops[..|ops| - 1], ops[|ops| - 1];
      RunTracks(s, init);
      var before := Run(s, init);
      hide Tracks;
      if Allocates(before, op) {
        TracksBirth(s.counter, Allocations(s, init), Births(s, init), before, op.key);
      } else {
        TracksRest(s.counter, Allocations(s, init), Births(s, init), before, op);
      }
    }
  }

  /** Over any run, two live records share an address exactly when their allocations are a
      multiple of 65536 apart. */
  lemma LiveAddressesEqualIff(s: State, ops: seq<Op>, a: string, b: string)
    requires Started(s)
    requires a in Run(s, ops).store && b in Run(s, ops).store
    ensures var births := Births(s, ops);
      && a in births && b in births
      && (Run(s, ops).store[a] == Run(s, ops).store[b] <==> births[a] % ADDRESSES == births[b] % ADDRESSES)
  {
    RunTracks(s, ops);
    var births, end := Births(s, ops), Run(s, ops);
    assert a in births.Keys && b in births.Keys;
    hide Births, Run, Allocations, Address, Nth;
    SameAllocationIff(s.counter, births[a], births[b]);
  }

  // No two live records were born at the same allocation.
  lemma {:induction false} BirthsDiffer(s: State, ops: seq<Op>, a: string, b: string)
    requires Started(s)
    requires a in Births(s, ops) && b in Births(s, ops) && a != b
    ensures Births(s, ops)[a] != Births(s, ops)[b]
  {
    var init, op := ops[..|ops| - 1], ops[|ops| - 1];
    RunTracks(s, init);
    hide Address, Nth;
    if a in Births(s, init) && b in Births(s, init) { BirthsDiffer(s, init, a, b); }
  }

  /** As long as the process allocated at most 65536 addresses, all live ones are different. */
  lemma FewAllocationsStayDistinct(s: State, ops: seq<Op>, a: string, b: string)
    requires Started(s) && Allocations(s, ops) <= ADDRESSES
    requires a in Run(s, ops).store && b in Run(s, ops).store && a != b
    ensures Run(s, ops).store[a] != Run(s, ops).store[b]
  {
    RunTracks(s, ops);
    hide Run, Births, Allocations, Address, Nth;
    LiveAddressesEqualIff(s, ops, a, b);
    BirthsDiffer(s, ops, a, b);
    SmallResidues(Births(s, ops)[a], Births(s, ops)[b]);
  }

  lemma SmallResidues(i: nat, j: nat)
    requires 0 < i <= ADDRESSES && 0 < j <= ADDRESSES && i != j
    ensures i % ADDRESSES != j % ADDRESSES
  {
  }

  /** An update keeps the address and uses up nothing. */
  lemma UpdateKeepsAddress(s: State, ops: seq<Op>, key: string)
    requires Started(s) && key in Run(s, ops).store
    ensures Run(s, ops + [Put(key)]) == Run(s, ops)
    ensures Allocations(s, ops + [Put(key)]) == Allocations(s, ops)
  {
    RunTracks(s, ops);
    assert key in Births(s, ops).Keys;
    AddressNotEmpty(Nth(s.counter, Births(s, ops)[key]));
    assert (ops + [Put(key)])[..|ops|] == ops;
    hide Address, Nth, Births;
  }

  // ---- The bound is tight ----

  lemma RunConcat(s: State, ops: seq<Op>, op: Op)
    ensures Run(s, ops + [op]) == Step(Run(s, ops), op)
    ensures Allocations(s, ops + [op]) == Allocations(s, ops) + if Allocates(Run(s, ops), op) then 1 else 0
  {
    assert (ops + [op])[..|ops|] == ops;
    hide Step, Allocates;
  }

  lemma ChurnOnce(start: nat, n: nat, m: map<string, Entry>, key: string)
    requires key !in m
    ensures var s := State(Nth(start, n), m);
      && Allocates(s, Put(key)) && !Allocates(Step(s, Put(key)), Remove(key))
      && Step(Step(s, Put(key)), Remove(key)) == State(Nth(start, n + 1), m)
  {
    NthStep(start, n);
    hide Nth, Address;
    var x := Ip(Address(Nth(start, n + 1)));
    assert m[key := x] - {key} == m;
  }

  // One record kept, another created and deleted n times.
  function Kept(first: string, key: string, n: nat): seq<Op> {
    if n == 0 then [Put(first)] else Kept(first, key, n - 1) + [Put(key)] + [Remove(key)]
  }

  ghost predicate Churned(s: State, ops: seq<Op>, first: string, n: nat) {
    && Run(s, ops) == State(Nth(s.counter, n + 1), map[first := Ip(Address(Nth(s.counter, 1)))])
    && Allocations(s, ops) == n + 1
  }

  lemma FirstPut(s: State, first: string)
    requires Started(s)
    ensures Churned(s, [Put(first)], first, 0)
  {
    RunConcat(s, [], Put(first));
    assert [] + [Put(first)] == [Put(first)];
    hide Address;
  }

  lemma ChurnedOnce(s: State, ops: seq<Op>, first: string, key: string, n: nat)
    requires Churned(s, ops, first, n) && first != key
    ensures Churned(s, ops + [Put(key)] + [Remove(key)], first, n + 1)
  {
    hide Run, Allocations, Step, Allocates, Nth, Address;
    RunConcat(s, ops, Put(key));
    RunConcat(s, ops + [Put(key)], Remove(key));
    ChurnOnce(s.counter, n + 1, map[first := Ip(Address(Nth(s.counter, 1)))], key);
  }

  lemma {:induction false} ChurnRuns(s: State, first: string, key: string, n: nat)
    requires Started(s) && first != key
    ensures Churned(s, Kept(first, key, n), first, n)
  {
    hide Churned, Started;
    if n == 0 {
      FirstPut(s, first);
    } else {
      ChurnRuns(s, first, key, n - 1);
      ChurnedOnce(s, Kept(first, key, n - 1), first, key, n - 1);
    }
  }

  ghost predicate Clash(s: State, ops: seq<Op>, a: string, b: string) {
    && a in Run(s, ops).store && b in Run(s, ops).store
    && Run(s, ops).store[a] == Run(s, ops).store[b]
  }

  lemma PutAfter(s: State, ops: seq<Op>, first: string, key: string, n: nat)
    requires Churned(s, ops, first, n) && first != key
    ensures Allocations(s, ops + [Put(key)]) == n + 2
    ensures Run(s, ops + [Put(key)]).store
         == map[first := Ip(Address(Nth(s.counter, 1))), key := Ip(Address(Nth(s.counter, n + 2)))]
  {
    RunConcat(s, ops, Put(key));
    NthStep(s.counter, n + 1);
    hide Address, Nth, Run, Allocations;
  }

  lemma FullCircle(counter: nat, n: nat)
    requires n == ADDRESSES - 1
    ensures Address(Nth(counter, 1)) == Address(Nth(counter, n + 2))
  {
    SameAllocationIff(counter, 1, n + 2);
    hide Address, Nth;
  }

  lemma ChurnClashes(s: State, first: string, key: string, n: nat)
    requires Started(s) && first != key && n == ADDRESSES - 1
    ensures Allocations(s, Kept(first, key, n) + [Put(key)]) == n + 2 && Clash(s, Kept(first, key, n) + [Put(key)], first, key)
  {
    FullCircle(s.counter, n);
    hide Kept, Address, Nth, Run, Allocations, Churned;
    ChurnRuns(s, first, key, n);
    PutAfter(s, Kept(first, key, n), first, key, n);
  }

  /** One allocation more and two live records can share an address. */
  lemma BoundIsTight(s: State, first: string, key: string)
    requires Started(s) && first != key
    ensures exists ops :: Allocations(s, ops) == ADDRESSES + 1 && Clash(s, ops, first, key)
  {
    var n: nat :| n == ADDRESSES - 1;
    hide Run, Allocations, Kept, Clash;
    ChurnClashes(s, first, key, n);
  }
}
