/** What a service request answers and what is found afterwards, told from the outside. */
module SvcOutcomes {
  import opened Keys
  import opened ArmIds
  import opened Worlds
  import opened VmSpec
  import opened Invariant
  import opened VmOutcomes
  import opened IdentitySpec
  import opened Operations
  import opened StoreRuns
  import opened Isolation

  // Another service of the VM has a record with one of the ports.
  ghost predicate Blocked(store: map<Key, Value>, a: SvcArgs) {
    a.input.Some?
    && exists j, p: int :: j in store && VmOutcomes.ServiceOf(j, VmKey(a.sub, a.rg, a.vm)) && j.svc != a.svc
         && store[j].SvcVal? && p in store[j].svc.ports && p in a.input.value.ports
  }

  lemma BlockedIsConflict(store: map<Key, Value>, a: SvcArgs)
    requires Typed(store) && a.input.Some?
    ensures Blocked(store, a) <==> Conflict(store, a, a.input.value.ports)
  {
    hide SvcContainer;
    if Conflict(store, a, a.input.value.ports) {
      var j :| j in Services(store, a.sub, a.rg, a.vm) && store[j].SvcVal? && store[j].svc.name != a.svc
               && exists p :: p in store[j].svc.ports && p in a.input.value.ports;
      var p :| p in store[j].svc.ports && p in a.input.value.ports;
      assert WellFiled(j, store[j]);
      assert VmOutcomes.ServiceOf(j, VmKey(a.sub, a.rg, a.vm)) && j.svc != a.svc;
    }
    if Blocked(store, a) {
      var j, p: int :| j in store && VmOutcomes.ServiceOf(j, VmKey(a.sub, a.rg, a.vm)) && j.svc != a.svc
         && store[j].SvcVal? && p in store[j].svc.ports && p in a.input.value.ports;
      assert WellFiled(j, store[j]) && j in Services(store, a.sub, a.rg, a.vm);
    }
  }

  /** What PUT on a service answers. With Docker the VM must be seen to run and no other of
      its services may have one of the ports; docker run must then work, and the name be free
      unless the service itself has it. */
  lemma PutServiceAnswers(w: World, a: SvcArgs, env: Env)
    requires Typed(w.store)
    ensures var (w', reply) := PutService(w, a, env);
      var k, key, x := VmKey(a.sub, a.rg, a.vm), SvcKey(a.sub, a.rg, a.vm, a.svc), SvcContainer(a.rg, a.vm, a.svc);
      && reply == (if k !in w.store then NotFound
                   else if !ServiceName(a.svc) || a.input.None? then BadRequest
                   else if !w.docker then DockerUnavailable
                   else if !Seen(w, VmContainer(a.rg, a.vm), env.blind) then VmNotRunning
                   else if Blocked(w.store, a) then PortConflict
                   else if !env.runOk || (x in w.containers && key !in w.store) then StartFailed
                   else if key in w.store then Success else Created)
      && (reply in {NotFound, BadRequest, DockerUnavailable} ==> w' == w)
      && (reply in {VmNotRunning, PortConflict} ==> Stands(w, k) && w'.containers == w.containers && PowerIs(w, w', k, reply == PortConflict))
      && (reply == StartFailed ==> key !in w'.store)
  {
    var k := VmKey(a.sub, a.rg, a.vm);
    if k in w.store {
      assert WellFiled(k, w.store[k]);
      if w.docker { TypedStands(w, k); RefreshIs(w, k, env.blind); }
      if a.input.Some? { BlockedIsConflict(w.store, a); }
    }
    hide VmContainer, SvcContainer, VmArmId, Blocked, Conflict, ServiceName, Typed, WellFiled, PowerIs, Refreshed;
  }

  /** After Created or Success the record says what was asked for, with all its ports, and the
      container runs. */
  lemma DeployedOutcome(w: World, a: SvcArgs, env: Env)
    requires PutService(w, a, env).1 in {Created, Success}
    ensures var w', key, x := PutService(w, a, env).0, SvcKey(a.sub, a.rg, a.vm, a.svc), SvcContainer(a.rg, a.vm, a.svc);
      && a.input.Some? && key in w'.store
      && w'.store[key] == SvcVal(SvcRec(a.svc, a.input.value.image, x, a.input.value.ports, "running"))
      && Seen(w', x, {})
      && (forall y :: y in w.containers && y != x ==> y in w'.containers && w'.containers[y] == w.containers[y])
  {
    hide VmContainer, SvcContainer, Conflict, ServiceName, Refreshed;
  }

  // The port of a stored service is refused to the VM's others.
  lemma RecordBlocks(w: World, j: Key, b: SvcArgs, env: Env, p: int)
    requires Typed(w.store) && w.docker && Seen(w, VmContainer(b.rg, b.vm), env.blind) && VmKey(b.sub, b.rg, b.vm) in w.store
    requires j in w.store && VmOutcomes.ServiceOf(j, VmKey(b.sub, b.rg, b.vm)) && j.svc != b.svc
    requires w.store[j].SvcVal? && p in w.store[j].svc.ports
    requires ServiceName(b.svc) && b.input.Some? && p in b.input.value.ports
    ensures PutService(w, b, env).1 == PortConflict
  {
    assert Blocked(w.store, b);
    hide VmContainer, Seen, ServiceName, Typed, Blocked;
    PutServiceAnswers(w, b, env);
  }

  /** A port once given to a service is refused to every other service of the VM: for as long
      as no request is about the first one, whatever else happens in between. */
  lemma PortStaysTaken(c: Config, s: Sys, a: SvcArgs, env: Env, ops: seq<(Op, int)>, b: SvcArgs, env2: Env, p: int)
    requires StoreSound(c, s) && Faithful(c.codec) && PutService(s.w, a, env).1 in {Created, Success}
    requires LawfulRun(c, Step(c, s, PutServiceOp(a, env), s.now), ops) && Spared(ops, SvcKey(a.sub, a.rg, a.vm, a.svc))
    requires b.sub == a.sub && b.rg == a.rg && b.vm == a.vm && b.svc != a.svc && ServiceName(b.svc)
    requires a.input.Some? && p in a.input.value.ports && b.input.Some? && p in b.input.value.ports
    ensures var w := Run(c, Step(c, s, PutServiceOp(a, env), s.now), ops).w;
      VmKey(a.sub, a.rg, a.vm) in w.store && w.docker && Seen(w, VmContainer(a.rg, a.vm), env2.blind) ==>
        PutService(w, b, env2).1 == PortConflict
  {
    hide PutService, StoreSound, Faithful, LawfulRun, Spared, Seen, ServiceName, SvcContainer, VmContainer;
    var op, key := PutServiceOp(a, env), SvcKey(a.sub, a.rg, a.vm, a.svc);
    var t := Step(c, s, op, s.now);
    var u := Run(c, t, ops);
    DeployedOutcome(s.w, a, env);
    assert t.w == PutService(s.w, a, env).0 && Lawful(s, op, s.now) && VmOutcomes.ServiceOf(key, VmKey(a.sub, a.rg, a.vm));
    hide *;
    StoreStepSound(c, s, op, s.now);
    RunKeepsRecord(c, t, ops, key);
    StoreRunSound(c, t, ops);
    SoundTyped(c, u);
    RecordKept(t.w, u.w, key);
    if VmKey(a.sub, a.rg, a.vm) in u.w.store && u.w.docker && Seen(u.w, VmContainer(a.rg, a.vm), env2.blind) {
      RecordBlocks(u.w, key, b, env2, p);
    }
  }

  lemma RecordKept(w: World, w': World, j: Key)
    requires SameRecord(w, w', j)
    ensures j in w.store && j in w'.store && w'.store[j] == w.store[j]
  {
  }

  lemma SoundTyped(c: Config, s: Sys)
    requires StoreSound(c, s)
    ensures Typed(s.w.store)
  {
  }

  /** GET finds exactly the stored services and, in Docker mode, puts into the record whether
      the container is seen to run, has failed or has stopped. */
  lemma ReadServiceOutcome(w: World, k: Key, env: Env)
    requires Typed(w.store) && k.SvcKey?
    ensures var (w', reply) := ReadService(w, k, env);
      && reply == (if k in w.store then Success else NotFound)
      && (k !in w.store || !w.docker ==> w' == w)
      && (k in w.store && w.docker ==>
            && w.store[k].SvcVal?
            && w' == w.(store := w.store[k := SvcVal(w.store[k].svc.(status :=
                 if Seen(w, SvcContainer(k.rg, k.vm, k.svc), env.blind) then "running"
                 else if env.exit.Some? && env.exit.value != 0 then "failed" else "stopped"))]))
  {
    if k in w.store {
      assert WellFiled(k, w.store[k]);
      NameKinds();
      assert SvcContainer(k.rg, k.vm, k.svc) != "";
      if !w.docker { assert w.store[k := SvcVal(w.store[k].svc)] == w.store; }
    }
    hide SvcContainer, KindOf, Typed, WellFiled;
  }

  /** DELETE finds exactly the stored services; the record goes and in Docker mode the
      container, and nothing else. */
  lemma DeleteServiceOutcome(w: World, k: Key)
    requires Typed(w.store) && k.SvcKey?
    ensures var (w', reply) := DeleteService(w, k);
      && reply == (if k in w.store then NoContent else NotFound)
      && (k !in w.store ==> w' == w)
      && (k in w.store ==> w' == w.(store := w.store - {k},
            containers := if w.docker then w.containers - {SvcContainer(k.rg, k.vm, k.svc)} else w.containers))
  {
    if k in w.store {
      assert WellFiled(k, w.store[k]);
      NameKinds();
      assert SvcContainer(k.rg, k.vm, k.svc) != "";
    }
    hide SvcContainer, KindOf, Typed, WellFiled;
  }
}
