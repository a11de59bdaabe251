/**
 * The hook bus shared by both plugin registries: a map from hook name to
 * the ordered list of subscribed callbacks, and the two ways of firing a
 * hook (notify: everyone gets the same arguments and errors are contained;
 * pipeline: defined return values replace the arguments and errors escape).
 */
module HookBus {
  import opened Js

  type HookTable = map<string, seq<CallbackId>>

  /** A `(hookName, callback)` entry of a plugin's `hooks` object. */
  datatype HookDecl = HookDecl(hook: string, callback: CallbackId)

  /** The keys of a JavaScript object are distinct. */
  predicate DistinctHooks(decls: seq<HookDecl>)
  {
    forall i, j :: 0 <= i < j < |decls| ==> decls[i].hook != decls[j].hook
  }

  /** The callbacks subscribed to `name`; a hook never registered has none. */
  function Subscribers(hooks: HookTable, name: string): seq<CallbackId>
  {
    if name in hooks then hooks[name] else []
  }

  /** `registerHook`: create the list lazily and push the callback. */
  function Subscribe(hooks: HookTable, name: string, cb: CallbackId): (r: HookTable)
    ensures r.Keys == hooks.Keys + {name}
    ensures Subscribers(r, name) == Subscribers(hooks, name) + [cb]
    ensures forall n :: n != name ==> Subscribers(r, n) == Subscribers(hooks, n)
  {
    hooks[name := Subscribers(hooks, name) + [cb]]
  }

  /** `indexOf`: the first position of `x`, or -1. */
  function IndexOf(s: seq<CallbackId>, x: CallbackId): (i: int)
    ensures -1 <= i < |s|
    ensures i == -1 <==> x !in s
    ensures i >= 0 ==> s[i] == x && x !in s[..i]
  {
    if s == [] then -1
    else if s[0] == x then 0
    else
      var j := IndexOf(s[1..], x);
      if j == -1 then -1 else j + 1
  }

  /** `splice(indexOf(x), 1)` when `x` is present. */
  function RemoveFirst(s: seq<CallbackId>, x: CallbackId): seq<CallbackId>
  {
    var i := IndexOf(s, x);
    if i == -1 then s else s[..i] + s[i + 1..]
  }

  /**
   * Removing a callback takes out its first occurrence only: every other
   * subscriber stays, in the same relative order.
   */
  lemma RemoveFirstShape(s: seq<CallbackId>, x: CallbackId)
    ensures x !in s ==> RemoveFirst(s, x) == s
    ensures x in s ==>
      var i := IndexOf(s, x);
      && |RemoveFirst(s, x)| == |s| - 1
      && x !in s[..i]
      && RemoveFirst(s, x) == s[..i] + s[i + 1..]
      && multiset(RemoveFirst(s, x)) == multiset(s) - multiset{x}
  {
    if x in s {
      var i := IndexOf(s, x);
      assert s == s[..i] + [x] + s[i + 1..];
    }
  }

  /** Removing a callback that was just appended, and nowhere else, undoes the append. */
  lemma RemoveFirstAfterAppend(s: seq<CallbackId>, x: CallbackId)
    requires x !in s
    ensures RemoveFirst(s + [x], x) == s
  {
    var t := s + [x];
    assert x in t;
    assert t[..|s|] == s;
    assert IndexOf(t, x) == |s|;
  }

  /** `unregisterHook`: a no-op for an unknown hook name. */
  function Unsubscribe(hooks: HookTable, name: string, cb: CallbackId): (r: HookTable)
    ensures r.Keys == hooks.Keys
    ensures Subscribers(r, name) == RemoveFirst(Subscribers(hooks, name), cb)
    ensures forall n :: n != name ==> Subscribers(r, n) == Subscribers(hooks, n)
  {
    if name !in hooks then hooks else hooks[name := RemoveFirst(hooks[name], cb)]
  }

  /** Subscribing every declaration, in declaration order. */
  function SubscribeAll(hooks: HookTable, decls: seq<HookDecl>): HookTable
    decreases |decls|
  {
    if decls == [] then hooks
    else
      var d := decls[|decls| - 1];
      Subscribe(SubscribeAll(hooks, decls[..|decls| - 1]), d.hook, d.callback)
  }

  /** Unsubscribing every declaration, in declaration order. */
  function UnsubscribeAll(hooks: HookTable, decls: seq<HookDecl>): HookTable
    decreases |decls|
  {
    if decls == [] then hooks
    else
      var d := decls[|decls| - 1];
      Unsubscribe(UnsubscribeAll(hooks, decls[..|decls| - 1]), d.hook, d.callback)
  }

  /** The callbacks `decls` declares for hook `name`, in declaration order. */
  function DeclaredFor(decls: seq<HookDecl>, name: string): seq<CallbackId>
    decreases |decls|
  {
    if decls == [] then []
    else
      var d := decls[|decls| - 1];
      DeclaredFor(decls[..|decls| - 1], name) + (if d.hook == name then [d.callback] else [])
  }

  /**
   * Registering a plugin's hooks appends, to each hook's list, the
   * callbacks declared for it in declaration order; nothing else changes.
   */
  lemma {:induction false} SubscribeAllAppends(hooks: HookTable, decls: seq<HookDecl>, name: string)
    ensures Subscribers(SubscribeAll(hooks, decls), name) == Subscribers(hooks, name) + DeclaredFor(decls, name)
    decreases |decls|
  {
    if decls != [] {
      SubscribeAllAppends(hooks, decls[..|decls| - 1], name);
    }
  }

  lemma {:induction false} SubscribeAllKeys(hooks: HookTable, decls: seq<HookDecl>)
    ensures SubscribeAll(hooks, decls).Keys == hooks.Keys + set d | d in decls :: d.hook
    decreases |decls|
  {
    if decls != [] {
      var init := decls[..|decls| - 1];
      SubscribeAllKeys(hooks, init);
      assert decls == init + [decls[|decls| - 1]];
    }
  }

  /** With distinct hook names a plugin declares at most one callback per hook. */
  lemma {:induction false} DeclaredForDistinct(decls: seq<HookDecl>, name: string)
    requires DistinctHooks(decls)
    ensures DeclaredFor(decls, name) == []
         || exists j :: 0 <= j < |decls| && decls[j].hook == name && DeclaredFor(decls, name) == [decls[j].callback]
    ensures (forall j :: 0 <= j < |decls| ==> decls[j].hook != name) ==> DeclaredFor(decls, name) == []
    decreases |decls|
  {
    if decls != [] {
      var init := decls[..|decls| - 1];
      DeclaredForDistinct(init, name);
      if decls[|decls| - 1].hook == name {
        DeclaredForNone(init, name);
      }
    }
  }

  lemma {:induction false} DeclaredForNone(decls: seq<HookDecl>, name: string)
    requires forall j :: 0 <= j < |decls| ==> decls[j].hook != name
    ensures DeclaredFor(decls, name) == []
    decreases |decls|
  {
    if decls != [] {
      DeclaredForNone(decls[..|decls| - 1], name);
    }
  }

  /**
   * With distinct hook names, unsubscribing a plugin's declarations removes
   * the first occurrence of the one callback declared for each hook.
   */
  lemma {:induction false} UnsubscribeAllRemoves(hooks: HookTable, decls: seq<HookDecl>, name: string)
    requires DistinctHooks(decls)
    ensures DeclaredFor(decls, name) == [] ==>
      Subscribers(UnsubscribeAll(hooks, decls), name) == Subscribers(hooks, name)
    ensures |DeclaredFor(decls, name)| == 1 ==>
      Subscribers(UnsubscribeAll(hooks, decls), name) == RemoveFirst(Subscribers(hooks, name), DeclaredFor(decls, name)[0])
    decreases |decls|
  {
    if decls != [] {
      var init := decls[..|decls| - 1];
      var d := decls[|decls| - 1];
      UnsubscribeAllRemoves(hooks, init, name);
      if d.hook == name {
        DeclaredForNone(init, name);
      }
    }
  }

  /**
   * Teardown completeness: unsubscribing what was just subscribed leaves
   * every hook with exactly its former subscribers, provided the plugin's
   * callbacks were not subscribed already (a bound method is a fresh
   * function object). A list created for the plugin stays, empty.
   */
  lemma {:induction false} UnsubscribeAfterSubscribe(hooks: HookTable, decls: seq<HookDecl>, name: string)
    requires DistinctHooks(decls)
    requires forall j :: 0 <= j < |decls| ==> decls[j].callback !in Subscribers(hooks, decls[j].hook)
    ensures Subscribers(UnsubscribeAll(SubscribeAll(hooks, decls), decls), name) == Subscribers(hooks, name)
  {
    var added := SubscribeAll(hooks, decls);
    SubscribeAllAppends(hooks, decls, name);
    UnsubscribeAllRemoves(added, decls, name);
    DeclaredForDistinct(decls, name);
    if DeclaredFor(decls, name) != [] {
      var j :| 0 <= j < |decls| && decls[j].hook == name && DeclaredFor(decls, name) == [decls[j].callback];
      RemoveFirstAfterAppend(Subscribers(hooks, name), decls[j].callback);
    }
  }

  /** Notify dispatch: every subscriber, in order, with the same arguments. */
  function NotifyLog(subs: seq<CallbackId>, args: seq<Value>, behave: Behaviour): (log: seq<Call>)
  {
    seq(|subs|, i requires 0 <= i < |subs| => Call(subs[i], args, behave(subs[i], args)))
  }

  /** The calls made by notifying each trigger in turn. */
  function NotifyAll(hooks: HookTable, triggers: seq<Trigger>, behave: Behaviour): seq<Call>
    decreases |triggers|
  {
    if triggers == [] then []
    else
      var t := triggers[|triggers| - 1];
      NotifyAll(hooks, triggers[..|triggers| - 1], behave) + NotifyLog(Subscribers(hooks, t.hook), t.args, behave)
  }

  /**
   * Pipeline dispatch, the loop of `triggerHook` in the pipeline registry:
   * `result = hook(...args); if (result !== undefined) args = [result]`,
   * and the final `result` is returned. An exception stops the loop and
   * escapes to the caller.
   */
  function Pipeline(subs: seq<CallbackId>, args: seq<Value>, result: Value, behave: Behaviour): Result<Value>
    decreases |subs|
  {
    if subs == [] then Ok(result)
    else
      match behave(subs[0], args)
      case Threw => Thrown
      case Returned(v) => Pipeline(subs[1..], if v != Undefined then [v] else args, v, behave)
  }

  /** The invocations the pipeline makes, up to and including one that throws. */
  function PipelineCalls(subs: seq<CallbackId>, args: seq<Value>, behave: Behaviour): seq<Call>
    decreases |subs|
  {
    if subs == [] then []
    else
      var out := behave(subs[0], args);
      match out
      case Threw => [Call(subs[0], args, Threw)]
      case Returned(v) =>
        [Call(subs[0], args, out)] + PipelineCalls(subs[1..], if v != Undefined then [v] else args, behave)
  }

  /** `triggerHook` of the pipeline registry, as a function of the hook table. */
  function TriggerPipeline(hooks: HookTable, name: string, args: seq<Value>, behave: Behaviour): Result<Value>
  {
    if name in hooks then Pipeline(hooks[name], args, Undefined, behave)
    else Ok(if |args| > 0 then args[0] else Undefined)
  }

  /** The arguments the pipeline hands to the next subscriber after `c`. */
  function NextArgs(c: Call): seq<Value>
  {
    if c.result.Returned? && c.result.v != Undefined then [c.result.v] else c.args
  }

  /**
   * What each subscriber receives: the first gets the original arguments,
   * every later one the most recent defined return value (or the
   * arguments carried over when the previous subscriber returned
   * `undefined`). Subscribers are called in list order and the calls stop
   * at the first one that throws.
   */
  lemma {:induction false} PipelineCallsShape(subs: seq<CallbackId>, args: seq<Value>, behave: Behaviour)
    ensures var calls := PipelineCalls(subs, args, behave);
      && |calls| <= |subs|
      && (forall i :: 0 <= i < |calls| ==> calls[i].callback == subs[i])
      && (forall i :: 0 <= i < |calls| ==> calls[i].result == behave(subs[i], calls[i].args))
      && (|calls| > 0 ==> calls[0].args == args)
      && (forall i :: 0 <= i < |calls| - 1 ==> calls[i].result.Returned? && calls[i + 1].args == NextArgs(calls[i]))
      && (|calls| < |subs| ==> |calls| > 0 && calls[|calls| - 1].result == Threw)
  {
    PipelineCallsInOrder(subs, args, behave);
    PipelineCallsChain(subs, args, behave);
    PipelineCallsStop(subs, args, behave);
  }

  /** The pipeline calls the subscribers in list order, each with its own behaviour. */
  lemma {:induction false} PipelineCallsInOrder(subs: seq<CallbackId>, args: seq<Value>, behave: Behaviour)
    ensures var calls := PipelineCalls(subs, args, behave);
      && |calls| <= |subs|
      && (forall i :: 0 <= i < |calls| ==> calls[i].callback == subs[i] && calls[i].result == behave(subs[i], calls[i].args))
    decreases |subs|
  {
    if subs != [] {
      var out := behave(subs[0], args);
      if out.Returned? {
        var next := if out.v != Undefined then [out.v] else args;
        PipelineCallsInOrder(subs[1..], next, behave);
        var rest := PipelineCalls(subs[1..], next, behave);
        assert PipelineCalls(subs, args, behave) == [Call(subs[0], args, out)] + rest;
      }
    }
  }

  /** Each call after the first receives what the one before it passed on. */
  lemma {:induction false} PipelineCallsChain(subs: seq<CallbackId>, args: seq<Value>, behave: Behaviour)
    ensures var calls := PipelineCalls(subs, args, behave);
      && (|calls| > 0 ==> calls[0].args == args)
      && (forall i :: 0 <= i < |calls| - 1 ==> calls[i].result.Returned? && calls[i + 1].args == NextArgs(calls[i]))
    decreases |subs|
  {
    if subs != [] {
      var out := behave(subs[0], args);
      if out.Returned? {
        var next := if out.v != Undefined then [out.v] else args;
        PipelineCallsChain(subs[1..], next, behave);
        var rest := PipelineCalls(subs[1..], next, behave);
        assert PipelineCalls(subs, args, behave) == [Call(subs[0], args, out)] + rest;
      }
    }
  }

  /** The calls stop early only at a subscriber that throws. */
  lemma {:induction false} PipelineCallsStop(subs: seq<CallbackId>, args: seq<Value>, behave: Behaviour)
    ensures var calls := PipelineCalls(subs, args, behave);
      |calls| < |subs| ==> |calls| > 0 && calls[|calls| - 1].result == Threw
    decreases |subs|
  {
    if subs != [] {
      var out := behave(subs[0], args);
      if out.Returned? {
        var next := if out.v != Undefined then [out.v] else args;
        PipelineCallsStop(subs[1..], next, behave);
        var rest := PipelineCalls(subs[1..], next, behave);
        assert PipelineCalls(subs, args, behave) == [Call(subs[0], args, out)] + rest;
      }
    }
  }

  /**
   * The pipeline result: it fails exactly when some call threw, and
   * otherwise it is what the LAST subscriber returned, which may be
   * `undefined` even when an earlier subscriber transformed the value.
   */
  lemma {:induction false} PipelineResult(subs: seq<CallbackId>, args: seq<Value>, result: Value, behave: Behaviour)
    ensures var calls := PipelineCalls(subs, args, behave);
      && (Pipeline(subs, args, result, behave).Thrown? <==> (|calls| > 0 && calls[|calls| - 1].result == Threw))
      && (Pipeline(subs, args, result, behave).Ok? && subs != [] ==>
            |calls| == |subs| && calls[|calls| - 1].result == Returned(Pipeline(subs, args, result, behave).value))
      && (subs == [] ==> Pipeline(subs, args, result, behave) == Ok(result))
    decreases |subs|
  {
    if subs != [] {
      var out := behave(subs[0], args);
      if out.Returned? {
        var v := out.v;
        var next := if v != Undefined then [v] else args;
        PipelineResult(subs[1..], next, v, behave);
        var rest := PipelineCalls(subs[1..], next, behave);
        assert PipelineCalls(subs, args, behave) == [Call(subs[0], args, out)] + rest;
      }
    }
  }

  /**
   * Subscribers that return their first argument unchanged (the default
   * `beforePreviewRender`) leave defined content unchanged through the
   * pipeline.
   */
  lemma {:induction false} PipelineOfIdentities(subs: seq<CallbackId>, content: Value, result: Value, behave: Behaviour)
    requires content != Undefined
    requires forall i :: 0 <= i < |subs| ==> behave(subs[i], [content]) == Returned(content)
    ensures Pipeline(subs, [content], result, behave) == (if subs == [] then Ok(result) else Ok(content))
    decreases |subs|
  {
    if subs != [] {
      PipelineOfIdentities(subs[1..], content, content, behave);
    }
  }
}
