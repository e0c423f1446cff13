/** The step system and the sequential broker describe the same invocations: what a process
    of the approve flow submits from its claim to its consumption, and for its read-back, is
    what the broker does. */
module Agreement {
  import opened Domain
  import opened Projections
  import opened Repositories
  import opened Actions
  import opened Json
  import opened Policy
  import opened Protocol
  import Broker
  import Paths
  import TimeText

  // The write of a process as an invocation whose tool returns its output.
  ghost function Invocation(site: Site, p: Proc, at: Time): Broker.Request
    requires Dated(p.action)
  {
    var a, h := p.action, site.env.hash;
    Broker.Request(a, ActionDigest(h, a), RequireApproval, true, Some(p.approvalId), p.callId, a.requesterId,
                   Broker.Output(ToolResult(PathOf(a), h(ContentOf(a)), |ContentOf(a)|, "created")), p.decidedAt, at)
  }

  lemma ClaimKeepsCalls(db: Db, op: Op)
    requires op.Take?
    ensures Exec(db, op).0.tables.calls == db.tables.calls
  {
  }

  lemma InvocationOps(site: Site, db: Db, p: Proc, at: Time)
    requires Dated(p.action) && p.callId !in db.tables.calls
    ensures var r := Invocation(site, p, at);
            Broker.AllOps(db, r) ==
            [Broker.ClaimOp(r)] + Broker.ProposalOps(db, r, Authorized) + Broker.ToolOps(r)
    ensures |Broker.AllOps(db, Invocation(site, p, at))| == 5
  {
    hide TimeText.Representable, ActionDigest, PathOf, ContentOf, Exec;
    var r := Invocation(site, p, at);
    var claim := Broker.ClaimOp(r);
    ClaimKeepsCalls(db, claim);
    assert Broker.ClaimOps(r) == [claim] && [claim][1..] == [];
    assert ExecAll(db, [claim]) == Exec(db, claim).0;
    assert Broker.ProposalOps(Exec(db, claim).0, r, Authorized) == Broker.ProposalOps(db, r, Authorized);
  }

  /** The five writes of a process between its policy decision and its verification are,
      one for one and in order, the operations of the broker's invocation. */
  lemma FlowIsInvocation(site: Site, s: Sys, p: Proc, at: Time)
    requires Dated(p.action) && p.callId !in s.db.tables.calls
    ensures var ops := Broker.AllOps(s.db, Invocation(site, p, at));
            && |ops| == 5
            && OpOf(site, s, p.(stage := Decided), at) == Some(ops[0])
            && OpOf(site, s, p.(stage := Holding), at) == Some(ops[1])
            && OpOf(site, s, p.(stage := Announced), at) == Some(ops[2])
            && OpOf(site, s, p.(stage := Dropped), at) == Some(ops[3])
            && OpOf(site, s, p.(stage := Written), at) == Some(ops[4])
  {
    hide TimeText.Representable, ActionDigest, PathOf, ContentOf, ExactReadBack, Checked, Broker.AllOps;
    InvocationOps(site, s.db, p, at);
  }

  // The read-back as an invocation that the policy allows outright.
  ghost function ReadInvocation(site: Site, p: Proc, at: Time): Broker.Request {
    Broker.Request(ReadAction(site, p, at), p.readDigest, Allow, true, None, p.readId, site.verifier(p.run),
                   Broker.Output(ToolResult(PathOf(p.action), site.env.hash(p.seen), |p.seen|, "")), at, at)
  }

  lemma PlainOps(db: Db, r: Broker.Request)
    requires !Broker.Asks(r)
    ensures Broker.AllOps(db, r) == Broker.ProposalOps(db, r, Authorized) + Broker.ToolOps(r)
  {
    hide Exec, Broker.ProposalOps, Broker.ToolOps;
    assert Broker.ClaimOps(r) == [] && ExecAll(db, []) == db;
  }

  /** So are the three writes of its read-back, without a claim and a consumption. */
  lemma ReadBackIsInvocation(site: Site, s: Sys, p: Proc, at: Time)
    requires Dated(p.action) && p.readId !in s.db.tables.calls
    ensures var ops := Broker.AllOps(s.db, ReadInvocation(site, p, at));
            && |ops| == 3
            && OpOf(site, s, p.(stage := Permitted), at) == Some(ops[0])
            && OpOf(site, s, p.(stage := ReadAnnounced), at) == Some(ops[1])
            && OpOf(site, s, p.(stage := Seen), at) == Some(ops[2])
  {
    hide TimeText.Representable, ActionDigest, PathOf, ContentOf, ExactReadBack, Checked, ChargeOf, Exec, Print,
         Paths.TargetText, HashText, Broker.AllOps;
    PlainOps(s.db, ReadInvocation(site, p, at));
  }
}
