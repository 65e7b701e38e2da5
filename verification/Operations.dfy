/** The requests the services answer, and what each does to the whole: the World, the
    clock, the secrets handed out and the tokens issued. */
module Operations {
  import opened Options
  import opened Keys
  import opened Worlds
  import opened VmSpec
  import opened IdentitySpec
  import opened AksSpec
  import opened GroupSpec

  datatype Op =
    | PutGroupOp(sub: string, rg: string, location: Option<string>)
    | DeleteGroupOp(sub: string, rg: string, env: Env)
    | PutVmOp(vm: VmArgs, env: Env)
    | ReadVmOp(sub: string, rg: string, name: string, env: Env)
    | DeleteVmOp(sub: string, rg: string, name: string)
    | PowerOp(sub: string, rg: string, name: string, action: Action, env: Env)
    | PutServiceOp(svc: SvcArgs, env: Env)
    | ReadServiceOp(sub: string, rg: string, name: string, service: string, env: Env)
    | DeleteServiceOp(sub: string, rg: string, name: string, service: string)
    | PutIdentityOp(sub: string, rg: string, name: string, minted: Assignment)
    | DeleteIdentityOp(sub: string, rg: string, name: string)
    | AttestOp(query: TokenQuery, pick: string)
    | IntrospectOp(token: string)
    | PutClusterOp(sub: string, rg: string, name: string, parsed: bool, env: Env)
    | DeleteClusterOp(sub: string, rg: string, name: string)
    | ShutdownOp(late: set<string>)
    | ReapOp(listed: bool)
    | DriftOp(containers: map<string, bool>, networks: set<string>)

  /** digest names k3s containers; codec prints and hashes tokens. */
  datatype Config = Config(codec: Codec, digest: string -> string)

  ghost function Effect(c: Config, w: World, op: Op, now: int): World {
    match op
    case PutGroupOp(s, r, l) => PutGroup(w, s, r, l).0
    case DeleteGroupOp(s, r, e) => DeleteGroup(w, s, r, e).0
    case PutVmOp(a, e) => PutVm(w, a, e).0
    case ReadVmOp(s, r, n, e) => ReadVm(w, VmKey(s, r, n), e).0
    case DeleteVmOp(s, r, n) => DeleteVm(w, s, r, n).0
    case PowerOp(s, r, n, a, e) => Power(w, s, r, n, a, e).0
    case PutServiceOp(a, e) => PutService(w, a, e).0
    case ReadServiceOp(s, r, v, n, e) => ReadService(w, SvcKey(s, r, v, n), e).0
    case DeleteServiceOp(s, r, v, n) => DeleteService(w, SvcKey(s, r, v, n)).0
    case PutIdentityOp(s, r, n, m) => PutIdentity(w, s, r, n, m).0
    case DeleteIdentityOp(s, r, n) => DeleteIdentity(w, s, r, n).0
    case AttestOp(q, p) => Attest(w, q, p, now, c.codec).0
    case IntrospectOp(t) => Introspect(w, t, now, c.codec).0
    case PutClusterOp(s, r, n, p, e) => PutCluster(w, c.digest, s, r, n, p, e).0
    case DeleteClusterOp(s, r, n) => DeleteCluster(w, s, r, n).0
    case ShutdownOp(l) => Shutdown(w, l)
    case ReapOp(l) => Reap(w, l)
    case DriftOp(cs, ns) => w.(containers := cs, networks := ns)
  }

  // A token issued: the world it was issued in, for which VM, with which claims, when.
  datatype Issue = Issue(at: World, secret: string, vm: Key, claims: Claims, when: int)

  /** The World together with what has happened: the clock, every secret ever minted
      and every token ever issued. */
  datatype Sys = Sys(w: World, now: int, used: set<string>, issued: set<Issue>)

  ghost function NewIssues(c: Config, w: World, op: Op, now: int): set<Issue> {
    if op.AttestOp? && Attest(w, op.query, op.pick, now, c.codec).1.Issued? then
      {Issue(w, op.query.secret, w.store[SecretKey(op.query.secret)].owner, Attest(w, op.query, op.pick, now, c.codec).1.claims, now)}
    else {}
  }

  ghost function Step(c: Config, s: Sys, op: Op, now: int): Sys {
    Sys(Effect(c, s.w, op, now), now, s.used + (if op.PutVmOp? then {op.vm.secret} else {}), s.issued + NewIssues(c, s.w, op, now))
  }

  ghost function Run(c: Config, s: Sys, ops: seq<(Op, int)>): Sys
    decreases |ops|
  {
    if ops == [] then s else Run(c, Step(c, s, ops[0].0, ops[0].1), ops[1..])
  }

  predicate VmOp(op: Op) {
    op.PutVmOp? || op.ReadVmOp? || op.DeleteVmOp? || op.PowerOp? || op.PutServiceOp? || op.ReadServiceOp? || op.DeleteServiceOp?
  }
}
