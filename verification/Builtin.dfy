/** The two built-in executors that wait for the outside world (pkg/builtin/builtin.go:49-81, 126-167). */
module Builtin {
  import opened Prelude
  import opened Charts
  import opened Protocol
  import opened Guarantees
  import opened Checkpoints
  import opened Drives

  /** The non-empty strings of a list, in order. */
  function Strings(items: seq<Value>): seq<string> {
    if items == [] then []
    else
      var last := items[|items| - 1];
      var front := Strings(items[..|items| - 1]);
      if last.Str? && last.s != "" then front + [last.s] else front
  }

  function StringSlice(v: Value): seq<string> {
    if v.List? then Strings(v.items) else []
  }

  lemma {:induction false} StringsMeaning(items: seq<Value>, f: string)
    ensures f in Strings(items) <==> f != "" && Str(f) in items
  {
    if items == [] {
    } else {
      StringsMeaning(items[..|items| - 1], f);
      assert items == items[..|items| - 1] + [items[|items| - 1]];
    }
  }

  /**
   * Order and repetition are kept: coercing splits over concatenation, and a single item gives itself or nothing. With
   * the empty list giving the empty list, these laws leave only one function.
   */
  lemma {:induction false} StringsInOrder(a: seq<Value>, b: seq<Value>, v: Value)
    ensures Strings(a + b) == Strings(a) + Strings(b)
    ensures Strings([v]) == if v.Str? && v.s != "" then [v.s] else []
    ensures Strings([]) == []
    decreases |b|
  {
    assert [v][..0] == [];
    if b == [] {
      assert a + b == a;
    } else {
      var n := |b| - 1;
      assert (a + b)[..|a + b| - 1] == a + b[..n];
      StringsInOrder(a, b[..n], v);
    }
  }

  method CoerceStrings(v: Value) returns (out: seq<string>)
    ensures out == StringSlice(v)
  {
    if !v.List? { return []; }
    out := [];
    for k := 0 to |v.items|
      invariant out == Strings(v.items[..k])
    {
      assert v.items[..k + 1][..k] == v.items[..k];
      if v.items[k].Str? && v.items[k].s != "" {
        out := out + [v.items[k].s];
      }
    }
    assert v.items[..|v.items|] == v.items;
  }

  /** The fields a state's configuration requires of signal data. */
  function Required(config: Payload): seq<string> {
    if "require" in config then StringSlice(config["require"]) else []
  }

  /** Exactly the non-empty strings listed under "require"; none if the entry is missing or is not a list. */
  lemma RequiredMeans(config: Payload)
    ensures forall f :: f in Required(config) <==>
              "require" in config && config["require"].List? && f != "" && Str(f) in config["require"].items
  {
    hide Strings;
    if "require" in config && config["require"].List? {
      forall f ensures f in Required(config) <==> f != "" && Str(f) in config["require"].items {
        StringsMeaning(config["require"].items, f);
      }
    }
  }

  function FirstMissing(fields: seq<string>, data: Payload): Option<string> {
    if fields == [] then None
    else if fields[0] !in data then Some(fields[0])
    else FirstMissing(fields[1..], data)
  }

  lemma {:induction false} FirstMissingMeaning(fields: seq<string>, data: Payload)
    ensures FirstMissing(fields, data).None? <==> forall f :: f in fields ==> f in data
    ensures FirstMissing(fields, data).Some? ==>
              exists k :: 0 <= k < |fields| && fields[k] == FirstMissing(fields, data).value && fields[k] !in data
                          && forall j :: 0 <= j < k ==> fields[j] in data
  {
    if fields == [] {
    } else if fields[0] !in data {
      assert fields[0] in fields;
    } else {
      FirstMissingMeaning(fields[1..], data);
      assert fields == [fields[0]] + fields[1..];
      if FirstMissing(fields[1..], data).Some? {
        var k :| 0 <= k < |fields| - 1 && fields[1..][k] == FirstMissing(fields, data).value && fields[1..][k] !in data
                 && forall j :: 0 <= j < k ==> fields[1..][j] in data;
        assert fields[k + 1] == FirstMissing(fields, data).value;
        forall j | 0 <= j < k + 1 ensures fields[j] in data {
          if j > 0 { assert fields[1..][j - 1] in data; }
        }
      }
    }
  }

  /** Parks on a cold entry; on resume, rejects data lacking a required field, else routes on the signal. */
  function Interactive(ev: Event): Answer {
    if ev.name == "" then Ok(Result("", map[], true, None))
    else match FirstMissing(Required(ev.config), ev.data)
      case Some(field) => Error(field, true)
      case None => Ok(Result(ev.name, map[], false, None))
  }

  /** What the outbound call came to: the author's mistake, or an exchange that did or did not succeed. */
  datatype Exchange = Misconfigured(text: string) | Exchanged(ok: bool, output: Payload)

  /** A configured string, or the default if it is missing, empty or not a string. */
  function StringOr(config: Payload, key: string, default: string): string {
    if key in config && config[key].Str? && config[key].s != "" then config[key].s else default
  }

  /** Registers with an outside system on a cold entry, and parks if that worked; on resume, as the interactive task. */
  function RegisterAndWait(ev: Event, http: Exchange): Answer {
    if ev.name != "" then
      match FirstMissing(Required(ev.config), ev.data)
      case Some(field) => Error(field, true)
      case None => Ok(Result(ev.name, map[], false, None))
    else match http
      case Misconfigured(text) => Error(text, false)
      case Exchanged(ok, output) =>
        if ok then Ok(Result("", output, true, None)) else Ok(Result(StringOr(ev.config, "error_event", "error"), output, false, None))
  }

  /**
   * Both executors on a resume: an invalid-input error if and only if the configuration lists, under "require", a non-empty
   * string the signal's data lacks; otherwise the signal itself is the event.
   */
  lemma WaitersOnResume(ev: Event, http: Exchange)
    requires ev.name != ""
    ensures Interactive(ev) == RegisterAndWait(ev, http)
    ensures Interactive(ev).Error? ==> Interactive(ev).invalidInput
    ensures Interactive(ev).Error? <==>
              "require" in ev.config && ev.config["require"].List?
              && exists f :: f != "" && Str(f) in ev.config["require"].items && f !in ev.data
    ensures Interactive(ev).Ok? ==> Interactive(ev).result == Result(ev.name, map[], false, None)
  {
    hide Required, FirstMissing;
    RequiredMeans(ev.config);
    FirstMissingMeaning(Required(ev.config), ev.data);
  }

  /**
   * On a cold entry the interactive task parks. The registering task fails for good on an author's mistake;
   * parks with the response if the exchange succeeded; and else takes the configured error event, "error" if none is named.
   */
  lemma WaitersOnEntry(ev: Event, http: Exchange)
    requires ev.name == ""
    ensures Interactive(ev) == Ok(Result("", map[], true, None))
    ensures http.Misconfigured? ==> RegisterAndWait(ev, http) == Error(http.text, false)
    ensures http.Exchanged? ==>
              && RegisterAndWait(ev, http).Ok?
              && var res := RegisterAndWait(ev, http).result;
              && res.output == http.output && res.wakeAt.None?
              && (res.suspend <==> http.ok)
              && (!http.ok ==>
                    if "error_event" in ev.config && ev.config["error_event"].Str? && ev.config["error_event"].s != ""
                    then res.event == ev.config["error_event"].s
                    else res.event == "error")
  {
  }

  /**
   * In every reachable state, a resumed driver that asks either executor is never failed by it: signal data holding every
   * non-empty string listed under "require" moves the instance along the signal's first matching transition, any other is
   * rejected.
   */
  lemma ResumedWaiterRoutes(s: State, e: string, http: Exchange)
    requires Reached(s)
    requires e in s.drivers && s.drivers[e].pc.Deciding? && s.drivers[e].first && s.drivers[e].resume.Some?
    ensures var d := s.drivers[e];
            var found := Lookup(d.inst.chartDef, d.inst.current);
            && found.Some?
            && var st, r := found.value, d.resume.value;
            && RegisterAndWait(EventFor(d, st), http) == Interactive(EventFor(d, st))
            && var d' := Decide(d, ReplyOf(Interactive(EventFor(d, st))));
            if "require" in st.config && st.config["require"].List?
               && exists f :: f != "" && Str(f) in st.config["require"].items && f !in r.data
            then d' == d.(pc := Releasing)
            else
              && d'.pc.Saving? && Resolve(st.transitions, r.signal) == Some(d'.inst.current)
              && d'.inst.payload == d.inst.payload
  {
    hide Reached, Interactive, RegisterAndWait, Lookup, Resolve;
    RoutedSignalMoves(s, e, map[], None);
    var d := s.drivers[e];
    WaitersOnResume(EventFor(d, Lookup(d.inst.chartDef, d.inst.current).value), http);
  }

  method ExecuteInteractive(ev: Event) returns (answer: Answer)
    ensures answer == Interactive(ev)
    ensures ev.name == "" ==> answer == Ok(Result("", map[], true, None))
    ensures ev.name != "" && answer.Ok? ==> answer.result == Result(ev.name, map[], false, None)
    ensures answer.Error? ==> answer.invalidInput
    ensures ev.name != "" ==>
              (answer.Error? <==>
                 "require" in ev.config && ev.config["require"].List?
                 && exists f :: f != "" && Str(f) in ev.config["require"].items && f !in ev.data)
  {
    if ev.name == "" { return Ok(Result("", map[], true, None)); }
    WaitersOnResume(ev, Misconfigured(""));
    var fields: seq<string> := [];
    if "require" in ev.config { fields := CoerceStrings(ev.config["require"]); }
    for k := 0 to |fields|
      invariant FirstMissing(fields, ev.data) == FirstMissing(fields[k..], ev.data)
    {
      if fields[k] !in ev.data { return Error(fields[k], true); }
    }
    return Ok(Result(ev.name, map[], false, None));
  }
}
