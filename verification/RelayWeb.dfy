/**
 * The HTTP streams of the relay over whole runs: each record is what its own script makes of it, so what holds of
 * every script of one record holds of every record in every run of the relay.
 */
module RelayWeb {
  import opened Frames
  import opened Relay
  import opened RelayInvariant
  import opened RelayMoves
  import opened RelayRuns
  import RD = RelayAdmission
  import CM = ClientManager
  import TunnelId
  import S = RelayStream
  import H = HttpStream
  import HA = HttpAnswers

  /** What the last step brings to the HTTP record under handle h. */
  function WebNow(cfg: Config, script: Script, h: nat): Option<H.Event> {
    var r := After(cfg, Before(script));
    if IsWeb(r.all, h) then WebInput(r, Last(script).1, h) else None
  }

  /** And what it finds. */
  function WebEnvNow(cfg: Config, script: Script, h: nat): H.HttpEnv {
    var r := After(cfg, Before(script));
    WebEnvOf(r, Last(script).0, WebAt(r.all, h).ws)
  }

  /** The part of a run that concerns that record: its frames and events, and what they found. */
  function WebScript(cfg: Config, script: Script, h: nat): HA.Script {
    if script == [] then []
    else
      match WebNow(cfg, script, h)
      case None => WebScript(cfg, Before(script), h)
      case Some(ev) => WebScript(cfg, Before(script), h) + [(WebEnvNow(cfg, script, h), ev)]
  }

  function WebAfter(cfg: Config, script: Script, h: nat): H.Http {
    WebAt(After(cfg, script).all, h)
  }

  predicate WebOfRun(cfg: Config, script: Script, h: nat) {
    Run(cfg, script).Some? && IsWeb(After(cfg, script).all, h)
  }

  lemma {:induction false} NoScriptYet(cfg: Config, script: Script, h: nat)
    requires Run(cfg, script).Some? && h >= |After(cfg, script).all|
    ensures WebScript(cfg, script, h) == []
  {
    hide Step, Enabled;
    if script != [] {
      StepAdds(After(cfg, Before(script)), cfg, Last(script).0, Last(script).1, h);
      NoScriptYet(cfg, Before(script), h);
    }
  }

  /** Every step of the script found the WebSocket OPEN. */
  ghost predicate AllOpen(script: HA.Script) {
    forall i :: 0 <= i < |script| ==> script[i].0.wsOpen
  }

  lemma OneMore(script: HA.Script, e: H.HttpEnv, ev: H.Event)
    requires H.OpenIsMonotone(script) && (e.wsOpen ==> AllOpen(script))
    ensures H.OpenIsMonotone(script + [(e, ev)]) && (e.wsOpen ==> AllOpen(script + [(e, ev)]))
    ensures (script + [(e, ev)])[..|script|] == script
  {
  }

  /** A WebSocket that is no longer OPEN stays so, once it has been a client. */
  lemma StaysClosed(r: Relay, cfg: Config, rd: Readings, ev: Event, ws: nat)
    requires Inv(r, cfg) && Enabled(r, cfg, rd, ev) && ws in r.reg.tunnelOf && ws in Step(r, cfg, rd, ev).reg.openClients
    ensures ws in r.reg.openClients
  {
    hide InvBut, Step, NeverServed, S.Possible, H.Possible, CM.Indexed, CM.MayJoin, TunnelId.Normalize;
    RD.RegistryMoves(r, cfg, rd, ev);
  }

  lemma WebKnown(r: Relay, cfg: Config, h: nat)
    requires Inv(r, cfg) && IsWeb(r.all, h)
    ensures WebAt(r.all, h).ws in r.reg.tunnelOf
  {
    hide Registered, Accounted, Owned, NoOrphans, Bounded, CM.Indexed, EntriesOk;
    Clauses(r, cfg, {});
  }

  lemma SameNames(w: H.Http, e: H.HttpEnv, ev: H.Event)
    ensures H.Step(w, e, ev).id == w.id && H.Step(w, e, ev).ws == w.ws
  {
    hide H.FromClient, H.OnLocal;
    match ev
    case Frame(f) => H.FromClientFollows(w, e, f);
    case Happens(l) => H.OnLocalFollows(w, e, l);
  }

  /** In every run of the relay, an HTTP record is what its own script makes of a created one. */
  lemma {:induction false} RecordIsRun(cfg: Config, script: Script, h: nat)
    requires WebOfRun(cfg, script, h)
    ensures var w, own := WebAfter(cfg, script, h), WebScript(cfg, script, h);
            && w == H.Run(H.Created(w.id, w.ws), own) && H.OpenIsMonotone(own)
            && (w.ws in After(cfg, script).reg.openClients ==> AllOpen(own))
  {
    hide Step, Enabled, InvBut, H.Step;
    if script == [] {
      NothingAtFirst(cfg, h);
    } else {
      var r := After(cfg, Before(script));
      var (rd, ev) := Last(script);
      RunInv(cfg, Before(script));
      if IsWeb(r.all, h) {
        RecordIsRun(cfg, Before(script), h);
        WebStepMoved(r, cfg, rd, ev, h);
        WebKnown(r, cfg, h);
        var w, own := WebAt(r.all, h), WebScript(cfg, Before(script), h);
        if w.ws in Step(r, cfg, rd, ev).reg.openClients { StaysClosed(r, cfg, rd, ev, w.ws); }
        if WebInput(r, ev, h).Some? {
          SameNames(w, WebEnvOf(r, rd, w.ws), WebInput(r, ev, h).value);
          OneMore(own, WebEnvOf(r, rd, w.ws), WebInput(r, ev, h).value);
        }
      } else {
        if IsTcp(r.all, h) { StepMoved(r, cfg, rd, ev, h); }
        StepAdds(r, cfg, rd, ev, h);
        NoScriptYet(cfg, Before(script), h);
      }
    }
  }

  /**
   * In every run of the relay, with any number of clients and agents, every HTTP stream calls its response in order
   * (one head, body chunks, one end) and, once it is gone, has answered or hung up on its end user; and while it
   * lives and its client is OPEN, the client was told PAUSE last exactly if the response has fallen behind and not
   * drained since, and REQ_END exactly if the request has been passed on whole.
   */
  lemma ResponsesInOrder(cfg: Config, script: Script, h: nat)
    requires WebOfRun(cfg, script, h)
    ensures var w, own := WebAfter(cfg, script, h), WebScript(cfg, script, h);
            && H.ResponseProgress(w.res.calls) != H.Misused && H.ClientTalk(w.toClient) != H.Malformed
            && (w.cleaned ==> w.res.destroyed || H.ResponseProgress(w.res.calls) == H.Finished)
            && (!w.cleaned && w.ws in After(cfg, script).reg.openClients ==>
                  H.ClientTalk(w.toClient) == H.Running(HA.Behind(H.Created(w.id, w.ws), own), HA.Uploaded(own)))
  {
    hide Run, After, H.Run, H.ClientTalk, H.ResponseProgress, HA.Behind, HA.Uploaded;
    RecordIsRun(cfg, script, h);
    var w, own := WebAfter(cfg, script, h), WebScript(cfg, script, h);
    H.ResponseIsWellFormed(w.id, w.ws, own);
    if !w.cleaned && w.ws in After(cfg, script).reg.openClients { HA.PausesExactly(w.id, w.ws, own); }
  }
}
