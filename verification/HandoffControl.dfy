/** Control replies belong to their request. */
module HandoffControl {
  import opened Urbs
  import opened Handoff
  import opened HandoffSession

  function LastOf(answers: seq<seq<Tagged>>): seq<Tagged> {
    if answers == [] then [] else answers[|answers| - 1]
  }

  /** One of the answers is exactly this. */
  ghost predicate Told(answers: seq<seq<Tagged>>, words: seq<byte>) {
    exists i :: 0 <= i < |answers| && Values(answers[i]) == words
  }

  function OpOf(c: Spc): Option<Op> {
    if c.Want? || c.Hold? then Some(c.op) else None
  }

  /** While a request is served, endpoint 0 holds the last answer given since it began. */
  ghost predicate Serves(c: Spc, dev: Device, r: Record)
    requires |dev.bufs| == 16
  {
    var op := OpOf(c);
    && (op.Some? && (op.value.Flag? || op.value.Reply?) ==> op.value.req.toHost)
    && (RequestOf(c).Some? && !(op.Some? && op.value.BeginControl?) ==>
      && dev.bufs[0] == LastOf(r.answers)
      && (r.own ==> r.answers != [])
      && (if op.Some? && op.value.Reply?
          then op.value.seen <= |r.answers| && (op.value.answered <==> op.value.seen > 0) && (r.own ==> op.value.seen > 0)
          else dev.answered <==> r.answers != []))
  }

  /** A session is starting and the device has been reset. */
  predicate Starting(c: Spc) {
    c == Cleaning(true) || TaskOf(c) == Some(Attach)
  }

  /** The library answers a request with these actions itself. */
  predicate SelfAnswered(a: Action) {
    a.Says? || a.GetConfig?
  }

  /** What the library itself answers: what it says, at most 512 bytes, or the configuration value. */
  function Words(a: Action, conf: byte): seq<byte>
    requires SelfAnswered(a)
  {
    if a.Says? then Cut(a.data, 512) else [conf]
  }

  /** The library's own answer is given, and to GET_CONFIGURATION it is the latest SET_CONFIGURATION. */
  ghost predicate Configured(c: Spc, dev: Device, r: Record) {
    && dev.conf == r.lastConf
    && (Starting(c) ==> r.lastConf == 0)
    && (dev.stopped ==> c.Stopped?)
    && var op := OpOf(c);
       RequestOf(c).Some? && SelfAnswered(RequestOf(c).value.action) && !(op.Some? && op.value.BeginControl?) ==>
         var words := Words(RequestOf(c).value.action, r.lastConf);
         if op.Some? && op.value.Own? then op.value.data == words else r.own && Told(r.answers, words)
  }

  /** A reply stalls exactly when the request is unsupported, or asks for data and had no answer
      when the server looked. Otherwise it carries the last answer given since the request
      began, cut to the requested length. An answer of the server thread's own, the library's or a
      callback's, is always in time. */
  ghost predicate Proper(p: ControlReply) {
    && (p.stall <==> p.req.action.Unsupported? || (p.req.toHost && p.req.length > 0 && p.seen == 0))
    && p.seen <= |p.given|
    && p.data == (if p.stall || !p.req.toHost then [] else Cut(LastOf(p.given), p.req.length))
    && (p.own && p.req.toHost ==> p.seen > 0)
    && (SelfAnswered(p.req.action) ==> p.own && Told(p.given, Words(p.req.action, p.conf)))
  }

  lemma OwnAnswerIsInTime(p: ControlReply)
    requires Proper(p) && (p.own || SelfAnswered(p.req.action)) && !p.req.action.Unsupported?
    ensures !p.stall && (p.req.toHost ==> p.data == Cut(LastOf(p.given), p.req.length))
  {
  }

  /** A request the library answers itself gets that answer, unless someone else answers as well. */
  lemma OwnWords(p: ControlReply)
    requires Proper(p) && SelfAnswered(p.req.action) && p.req.toHost
    ensures !p.stall && Told(p.given, Words(p.req.action, p.conf)) && p.data == Cut(LastOf(p.given), p.req.length)
    ensures |p.given| == 1 ==> Values(p.data) == Cut(Words(p.req.action, p.conf), p.req.length)
  {
    if |p.given| == 1 { ValuesCut(p.given[0], p.req.length); }
  }

  lemma ValuesCut(data: seq<Tagged>, n: nat)
    ensures Values(Cut(data, n)) == Cut(Values(data), n)
  {
  }

  ghost predicate Controls(c: Spc, dev: Device, r: Record) {
    && |dev.bufs| == 16
    && Serves(c, dev, r) && Configured(c, dev, r)
    && forall k :: 0 <= k < |r.replies| ==> Proper(r.replies[k])
  }

  lemma ToldMore(answers: seq<seq<Tagged>>, more: seq<Tagged>, words: seq<byte>)
    ensures Told(answers, words) ==> Told(answers + [more], words)
    ensures Values(more) == words ==> Told(answers + [more], words)
  {
    var all := answers + [more];
    assert all[|answers|] == more;
    if Told(answers, words) {
      var i :| 0 <= i < |answers| && Values(answers[i]) == words;
      assert all[i] == answers[i];
    }
  }

  /** Any thread may store, the answer becomes the last one. */
  lemma ControlsByPut(c: Spc, dev: Device, r: Record, k: Taken)
    requires Controls(c, dev, r) && k.ep < 16
    ensures Controls(c, Put(dev, k.ep, k.data), Takes(r, Some(k)))
  {
    hide Told;
    if RequestOf(c).Some? && SelfAnswered(RequestOf(c).value.action) {
      ToldMore(r.answers, k.data, Words(RequestOf(c).value.action, r.lastConf));
    }
  }

  lemma ControlsByThread(c: Core, r: Record, t: nat, m: Move)
    requires Controls(c.server, c.dev, r) && CanMove(c, t, m)
    ensures Controls(c.server, DoMove(c, t, m).dev, if m.Store? then Takes(r, Puts(c.dev, c.threads[t])) else r)
  {
    if m.Store? && Puts(c.dev, c.threads[t]).Some? {
      ControlsByPut(c.server, c.dev, r, Puts(c.dev, c.threads[t]).value);
    }
  }

  /** Without a lock the server starts, ends or goes on with a request, and answers nothing. */
  predicate GoesOn(c: Spc, c': Spc) {
    var op := OpOf(c');
    && (RequestOf(c').Some? && !(op.Some? && op.value.BeginControl?) ==>
          RequestOf(c) == RequestOf(c') && (OpOf(c).Some? ==> OpOf(c).value.Say?))
    && (op.Some? ==> !op.value.Own? && !op.value.Reply? && (op.value.Flag? ==> op.value.req.toHost))
  }

  lemma RequestByServerAtEnd(c: Spc, g: Go)
    requires CanGo(c, g) && EndsTask(g)
    ensures GoesOn(c, Goto(c, g))
  {
  }

  lemma RequestByServerAtCommand(c: Spc, g: Go)
    requires CanGo(c, g) && HearsClient(g)
    ensures GoesOn(c, Goto(c, g))
  {
  }

  lemma RequestByServerElse(c: Spc, g: Go)
    requires CanGo(c, g) && !EndsTask(g) && !HearsClient(g)
    ensures GoesOn(c, Goto(c, g))
  {
  }

  lemma RequestByServer(c: Spc, g: Go)
    requires CanGo(c, g)
    ensures GoesOn(c, Goto(c, g))
  {
    hide *;
    if EndsTask(g) {
      RequestByServerAtEnd(c, g);
    } else if HearsClient(g) {
      RequestByServerAtCommand(c, g);
    } else {
      RequestByServerElse(c, g);
    }
  }

  lemma AnswersByServer(c: Spc, r: Record, g: Go)
    requires CanGo(c, g)
    ensures var r' := GoRecord(r, c, g); r'.answers == r.answers && r'.own == r.own && r'.lastConf == r.lastConf
  {
  }

  lemma StartingByServer(c: Spc, g: Go)
    requires CanGo(c, g)
    ensures (Starting(Goto(c, g)) ==> Starting(c)) && !c.Stopped?
  {
  }

  lemma RepliesByServer(c: Spc, dev: Device, r: Record, g: Go)
    requires Controls(c, dev, r) && CanGo(c, g)
    ensures var r' := GoRecord(r, c, g); forall k :: 0 <= k < |r'.replies| ==> Proper(r'.replies[k])
  {
  }

  lemma ControlsByServer(c: Spc, dev: Device, r: Record, g: Go)
    requires Controls(c, dev, r) && CanGo(c, g)
    ensures Controls(Goto(c, g), dev, GoRecord(r, c, g))
  {
    RequestByServer(c, g);
    AnswersByServer(c, r, g);
    StartingByServer(c, g);
    RepliesByServer(c, dev, r, g);
  }

  /** The server thread's own answers. */
  lemma ControlsByOwn(dev: Device, op: Op, r: Record, ok: bool, answers: nat)
    requires Controls(Hold(op), dev, r) && op.Own?
    ensures Controls(BodyNext(dev, op, ok, answers), BodyDevice(dev, op), BodyRecord(r, dev, op, ok))
  {
    hide Told;
    var put, req := Speaks(dev, op), op.req;
    if put.Some? && SelfAnswered(req.action) {
      ToldMore(r.answers, put.value.data, Words(req.action, r.lastConf));
      assert Values(put.value.data) == op.data;
    }
  }

  lemma ControlsBySaying(dev: Device, op: Op, r: Record, ok: bool, answers: nat)
    requires Controls(Hold(op), dev, r) && op.Say? && op.ep < 16
    ensures Controls(BodyNext(dev, op, ok, answers), BodyDevice(dev, op), BodyRecord(r, dev, op, ok))
  {
    hide Told;
    var put, req := Speaks(dev, op), RequestOf(Hold(op));
    if put.Some? && req.Some? && SelfAnswered(req.value.action) {
      ToldMore(r.answers, put.value.data, Words(req.value.action, r.lastConf));
    }
  }

  lemma ControlsBySpeech(dev: Device, op: Op, r: Record, ok: bool, answers: nat)
    requires Controls(Hold(op), dev, r) && (op.Own? || op.Say?) && (op.Say? ==> op.ep < 16)
    ensures Controls(BodyNext(dev, op, ok, answers), BodyDevice(dev, op), BodyRecord(r, dev, op, ok))
  {
    hide Serves, Configured, Proper, BodyNext, BodyDevice, BodyRecord;
    if op.Own? { ControlsByOwn(dev, op, r, ok, answers); } else { ControlsBySaying(dev, op, r, ok, answers); }
  }

  /** The sections of a control request: it begins, the server looks for an answer and replies. */
  lemma ControlsByRequest(dev: Device, op: Op, r: Record, ok: bool)
    requires Controls(Hold(op), dev, r) && (op.BeginControl? || op.Flag?)
    ensures Controls(BodyNext(dev, op, ok, |r.answers|), BodyDevice(dev, op), BodyRecord(r, dev, op, ok))
  {
  }

  lemma ControlsByReply(dev: Device, op: Op, r: Record, ok: bool)
    requires Controls(Hold(op), dev, r) && op.Reply?
    ensures Controls(BodyNext(dev, op, ok, |r.answers|), BodyDevice(dev, op), BodyRecord(r, dev, op, ok))
  {
  }

  lemma ControlsByOther(dev: Device, op: Op, r: Record, ok: bool)
    requires Controls(Hold(op), dev, r) && (op.Reset? || op.Fetch? || op.Halt?) && (op.Fetch? ==> op.ep < 16)
    ensures Controls(BodyNext(dev, op, ok, |r.answers|), BodyDevice(dev, op), BodyRecord(r, dev, op, ok))
  {
  }

  lemma ControlsByBody(dev: Device, op: Op, r: Record, ok: bool)
    requires Controls(Hold(op), dev, r) && (op.Fetch? || op.Say? ==> op.ep < 16)
    ensures Controls(BodyNext(dev, op, ok, |r.answers|), BodyDevice(dev, op), BodyRecord(r, dev, op, ok))
  {
    hide Serves, Configured, Proper, BodyNext, BodyDevice, BodyRecord;
    if op.Own? || op.Say? {
      ControlsBySpeech(dev, op, r, ok, |r.answers|);
    } else if op.BeginControl? || op.Flag? {
      ControlsByRequest(dev, op, r, ok);
    } else if op.Reply? {
      ControlsByReply(dev, op, r, ok);
    } else {
      ControlsByOther(dev, op, r, ok);
    }
  }
}
