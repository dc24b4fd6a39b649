/** A connection keeps its descriptor for as long as it is in the table, across any number of tunnels. */
module Descriptors {
  import opened Protocol
  import opened Links
  import opened Reassembly
  import opened Parties
  import opened World
  import opened WorldInvariant
  import S = ServerModel
  import C = ClientModel

  type Entries = map<ConnId, int>

  /**
   From (t, a) to (t', a'), a being the ids ever entered: surviving entries are the same, new ones are
   newly entered.
   */
  ghost predicate Keeps(t: Entries, a: seq<ConnId>, t': Entries, a': seq<ConnId>) {
    && (forall id :: id in t && id in t' ==> t'[id] == t[id])
    && a <= a'
    && (forall id :: id in t' && id !in t ==> id in a'[|a|..])
  }

  lemma NotReentered(a: seq<ConnId>, n: nat, id: ConnId)
    requires NoneTwice(a) && n <= |a| && id in a[..n]
    ensures id !in a[n..]
  {
    var i :| 0 <= i < n && a[i] == id;
  }

  lemma KeepsTrans(t: Entries, a: seq<ConnId>, t1: Entries, a1: seq<ConnId>, t2: Entries, a2: seq<ConnId>)
    requires Keeps(t, a, t1, a1) && Keeps(t1, a1, t2, a2)
    requires NoneTwice(a2) && forall id :: id in t ==> id in a
    ensures Keeps(t, a, t2, a2)
  {
    assert a2[|a|..] == a1[|a|..] + a2[|a1|..];
    forall id | id in t ensures id !in a2[|a1|..] {
      assert forall k | 0 <= k < |a| :: a2[k] == a[k];
      NotReentered(a2, |a1|, id);
    }
  }

  lemma Shrinks(t: Entries, a: seq<ConnId>, t': Entries)
    requires t'.Keys <= t.Keys && forall id :: id in t' ==> t'[id] == t[id]
    ensures Keeps(t, a, t', a)
  {
  }

  lemma Enters(t: Entries, a: seq<ConnId>, id: ConnId, fd: int)
    requires id !in t
    ensures Keeps(t, a, t[id := fd], a + [id]) && Keeps(t, a, t, a + [id])
  {
    assert (a + [id])[|a|..] == [id];
  }

  // ---------- server ----------

  ghost predicate ServerKeeps(s: S.Server, s': S.Server) {
    Keeps(s.table, s.added, s'.table, s'.added)
  }

  lemma ServerStepKeepsEntries(s: S.Server, step: S.ServerStep)
    requires S.Enabled(s, step) && (s.nextId < 0x1_0000_0000 ==> s.nextId !in s.table)
    ensures ServerKeeps(s, S.Step(s, step))
  {
    var s' := S.Step(s, step);
    hide Keeps, Transmit, Append;
    if step.AcceptOutside? && s.held {
      Enters(s.table, s.added, s.nextId, step.fd);
      assert s.table[s.nextId := step.fd] - {s.nextId} == s.table;
    } else {
      Shrinks(s.table, s.added, s'.table);
    }
  }

  lemma {:induction false} ServerHandlingKeepsEntries(s: S.Server, ms: seq<Message>, envs: seq<S.Env>)
    ensures var s' := ServerHandles(s, ms, envs);
            && s'.added == s.added && s'.table.Keys <= s.table.Keys
            && forall id :: id in s'.table ==> s'.table[id] == s.table[id]
    decreases |ms|
  {
    if ms != [] {
      var env := if envs == [] then S.Env(0, 0) else envs[0];
      ServerHandleShrinks(s, ms[0], env);
      hide S.Handle;
      ServerHandlingKeepsEntries(S.Handle(s, ms[0], env), ms[1..], if envs == [] then [] else envs[1..]);
    }
  }

  lemma OnTunnelDataShrinks(s: S.Server, id: ConnId, b: seq<byte>, env: S.Env)
    ensures var t := S.OnTunnelData(s, id, b, env);
            t.added == s.added && (t.table == s.table || t.table == s.table - {id})
  {
    hide Transmit, Append, Cut;
  }

  lemma ServerHandleShrinks(s: S.Server, m: Message, env: S.Env)
    ensures var s' := S.Handle(s, m, env);
            && s'.added == s.added && s'.table.Keys <= s.table.Keys
            && forall id :: id in s'.table ==> s'.table[id] == s.table[id]
  {
    OnTunnelDataShrinks(s.(handled := s.handled + [m]), m.connId, m.payload, env);
    hide S.OnTunnelData;
  }

  // ---------- client ----------

  ghost predicate ClientKeeps(c: C.Client, c': C.Client) {
    Keeps(c.table, c.added, c'.table, c'.added)
  }

  lemma ClientStepKeepsEntries(c: C.Client, step: C.ClientStep)
    requires C.Enabled(c, step)
    ensures ClientKeeps(c, C.Step(c, step))
  {
    hide Keeps, Transmit, Append;
    Shrinks(c.table, c.added, C.Step(c, step).table);
  }

  lemma OnOpenKeepsEntries(c: C.Client, id: ConnId, env: C.Env)
    ensures ClientKeeps(c, C.OnOpen(c, id, env))
  {
    hide Keeps, Transmit;
    Shrinks(c.table, c.added, c.table);
    if id !in c.table && env.connect.Connected? {
      Enters(c.table, c.added, id, env.connect.fd);
    }
  }

  lemma OnTunnelDataKeepsEntries(c: C.Client, id: ConnId, b: seq<byte>, env: C.Env)
    ensures ClientKeeps(c, C.OnTunnelData(c, id, b, env))
  {
    hide Keeps, Transmit, Append, Cut;
    Shrinks(c.table, c.added, C.OnTunnelData(c, id, b, env).table);
  }

  lemma ClientHandleKeepsEntries(c: C.Client, m: Message, env: C.Env)
    ensures ClientKeeps(c, C.Handle(c, m, env))
  {
    var c0 := c.(handled := c.handled + [m]);
    OnOpenKeepsEntries(c0, m.connId, env);
    OnTunnelDataKeepsEntries(c0, m.connId, m.payload, env);
    hide Keeps, C.OnOpen, C.OnTunnelData;
    Shrinks(c.table, c.added, c.table - {m.connId});
    Shrinks(c.table, c.added, c.table);
  }

  lemma {:induction false} ClientHandlingKeepsEntries(c: C.Client, ms: seq<Message>, envs: seq<C.Env>)
    requires NoneTwice(ClientHandles(c, ms, envs).added)
    requires forall id :: id in c.table ==> id in c.added
    ensures ClientKeeps(c, ClientHandles(c, ms, envs))
    decreases |ms|
  {
    if ms == [] {
      Shrinks(c.table, c.added, c.table);
    } else {
      var env := if envs == [] then C.Env(C.Refused, 0, 0) else envs[0];
      var rest := if envs == [] then [] else envs[1..];
      var c1 := C.Handle(c, ms[0], env);
      ClientHandleKeepsEntries(c, ms[0], env);
      hide C.Handle;
      forall id | id in c1.table ensures id in c1.added {
        assert id in c.table ==> id in c.added;
      }
      ClientHandlingKeepsEntries(c1, ms[1..], rest);
      KeepsTrans(c.table, c.added, c1.table, c1.added, ClientHandles(c1, ms[1..], rest).table,
                 ClientHandles(c1, ms[1..], rest).added);
      hide Keeps;
    }
  }

  // ---------- runs ----------

  ghost predicate WorldKeeps(w: World, w': World) {
    ServerKeeps(w.server, w'.server) && ClientKeeps(w.client, w'.client)
  }

  /** What the invariant says about ids entered. */
  lemma EntryFacts(w: World)
    requires Inv(w)
    ensures NoneTwice(w.server.added) && NoneTwice(w.client.added)
    ensures forall id :: id in w.server.table ==> id in w.server.added
    ensures forall id :: id in w.client.table ==> id in w.client.added
    ensures w.server.nextId < 0x1_0000_0000 ==> w.server.nextId !in w.server.table
  {
    assert S.GlobalInv(w.server) && C.GlobalInv(w.client);
    forall id ensures id in w.server.table ==> id in w.server.added {
      assert S.ViewInv(S.ViewOf(w.server, id));
    }
    forall id ensures id in w.client.table ==> id in w.client.added {
      assert C.ViewInv(C.ViewOf(w.client, id));
    }
    if w.server.nextId < 0x1_0000_0000 {
      assert S.ViewInv(S.ViewOf(w.server, w.server.nextId));
    }
  }

  lemma ServerReadsKeeps(w: World, n: nat, envs: seq<S.Env>)
    requires w.serverRec.Valid() && w.upRead + n <= |Bytes(UpLink(w))|
    ensures WorldKeeps(w, ServerReads(w, n, envs))
  {
    hide Bytes, Collect, ServerHandles, UpLink;
    var d := Collect(w.serverRec, Bytes(UpLink(w))[w.upRead..w.upRead + n]);
    var w' := ServerReads(w, n, envs);
    assert w'.server == ServerHandles(w.server, d.msgs, envs) && w'.client == w.client;
    hide *;
    ServerHandlingKeepsEntries(w.server, d.msgs, envs);
    Shrinks(w.server.table, w.server.added, w'.server.table);
    Shrinks(w.client.table, w.client.added, w.client.table);
    BothKeep(w, w');
  }

  lemma ClientReadsKeeps(w: World, n: nat, envs: seq<C.Env>)
    requires w.clientRec.Valid() && w.downRead + n <= |Bytes(w.server.link)|
    requires forall id :: id in w.client.table ==> id in w.client.added
    requires NoneTwice(ClientReads(w, n, envs).client.added)
    ensures WorldKeeps(w, ClientReads(w, n, envs))
  {
    hide Bytes, Collect, ClientHandles, NoneTwice;
    var d := Collect(w.clientRec, Bytes(w.server.link)[w.downRead..w.downRead + n]);
    var w' := ClientReads(w, n, envs);
    assert w'.client == ClientHandles(w.client, d.msgs, envs) && w'.server == w.server;
    hide *;
    ClientHandlingKeepsEntries(w.client, d.msgs, envs);
    Shrinks(w.server.table, w.server.added, w.server.table);
    BothKeep(w, w');
  }

  lemma BothKeep(w: World, w': World)
    requires Keeps(w.server.table, w.server.added, w'.server.table, w'.server.added) || ServerKeeps(w.server, w'.server)
    requires Keeps(w.client.table, w.client.added, w'.client.table, w'.client.added) || ClientKeeps(w.client, w'.client)
    ensures WorldKeeps(w, w')
  {
    hide Keeps;
  }

  /** A step of one side leaves the other's table alone. */
  lemma LocalKeeps(w: World, step: Step)
    requires w.serverRec.Valid() && w.clientRec.Valid() && (step.OfServer? || step.OfClient?)
    requires w.server.nextId < 0x1_0000_0000 ==> w.server.nextId !in w.server.table
    ensures WorldKeeps(w, Apply(w, step))
  {
    hide Keeps, S.Step, C.Step, ServerReads, ClientReads;
    Shrinks(w.server.table, w.server.added, w.server.table);
    Shrinks(w.client.table, w.client.added, w.client.table);
    if CanStep(w, step) {
      if step.OfServer? {
        ServerStepKeepsEntries(w.server, step.s);
      } else {
        ClientStepKeepsEntries(w.client, step.c);
      }
    }
  }

  lemma ApplyKeeps(w: World, step: Step)
    requires Inv(w) && w.serverRec.Valid() && w.clientRec.Valid() && Inv(Apply(w, step))
    ensures WorldKeeps(w, Apply(w, step))
  {
    EntryFacts(w);
    EntryFacts(Apply(w, step));
    hide Inv, NoneTwice, S.Step, C.Step, ServerReads, ClientReads, WorldKeeps, Bytes;
    match step
    case ServerReceives(n, envs) =>
      if CanStep(w, step) {
        ServerReadsKeeps(w, n, envs);
      } else {
        Unchanged(w);
      }
    case ClientReceives(n, envs) =>
      if CanStep(w, step) {
        ClientReadsKeeps(w, n, envs);
      } else {
        Unchanged(w);
      }
    case _ => LocalKeeps(w, step);
  }

  lemma Unchanged(w: World)
    ensures WorldKeeps(w, w)
  {
    Shrinks(w.server.table, w.server.added, w.server.table);
    Shrinks(w.client.table, w.client.added, w.client.table);
  }

  lemma {:induction false} BoundaryPrefix(steps: seq<Step>, more: seq<Step>)
    requires BoundaryRun(steps + more)
    ensures BoundaryRun(steps)
    decreases |more|
  {
    if more == [] {
      assert steps + more == steps;
    } else {
      var init := more[..|more| - 1];
      assert (steps + more)[..|steps + more| - 1] == steps + init;
      hide AtBoundary, Run;
      BoundaryPrefix(steps, init);
    }
  }

  lemma {:induction false} RunKeeps(steps: seq<Step>, more: seq<Step>)
    requires BoundaryRun(steps + more)
    ensures WorldKeeps(Run(steps), Run(steps + more))
    decreases |more|
  {
    if more == [] {
      assert steps + more == steps;
      hide *;
      Unchanged(Run(steps));
    } else {
      var all, init := steps + more, more[..|more| - 1];
      assert all[..|all| - 1] == steps + init;
      hide Inv, Apply, WorldKeeps, AtBoundary;
      BoundaryPrefix(steps, more);
      RunKeeps(steps, init);
      RunInv(steps);
      RunInv(steps + init);
      RunInv(all);
      RunKeepsOne(Run(steps), Run(steps + init), all[|all| - 1]);
    }
  }

  lemma RunKeepsOne(w: World, w1: World, step: Step)
    requires Inv(w) && Inv(w1) && w1.serverRec.Valid() && w1.clientRec.Valid() && Inv(Apply(w1, step))
    requires WorldKeeps(w, w1)
    ensures WorldKeeps(w, Apply(w1, step))
  {
    var w2 := Apply(w1, step);
    ApplyKeeps(w1, step);
    EntryFacts(w);
    EntryFacts(w2);
    hide Inv, Apply, Keeps, NoneTwice;
    KeepsTrans(w.server.table, w.server.added, w1.server.table, w1.server.added, w2.server.table, w2.server.added);
    KeepsTrans(w.client.table, w.client.added, w1.client.table, w1.client.added, w2.client.table, w2.client.added);
  }

  /**
   Between any two points of a run, however many tunnels later, a connection in the table at both has the
   same descriptor.
   */
  lemma DescriptorKept(steps: seq<Step>, more: seq<Step>, id: ConnId)
    requires BoundaryRun(steps + more)
    ensures var w, w' := Run(steps), Run(steps + more);
            && (id in w.server.table && id in w'.server.table ==> w'.server.table[id] == w.server.table[id])
            && (id in w.client.table && id in w'.client.table ==> w'.client.table[id] == w.client.table[id])
  {
    RunKeeps(steps, more);
    hide Run, Inv, BoundaryRun;
  }
}
