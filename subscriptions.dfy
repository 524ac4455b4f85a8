/**
 * The subscription resolver: flattening a context's event listeners into
 * (event name, source context) pairs, and grouping those pairs by source
 * context in order of first appearance.
 */
module Subscriptions {
  import opened Wrappers
  import opened Strings
  import opened Domain

  /** One `{'name': ..., 'context': ...}` entry. */
  datatype Subscription = Subscription(name: string, context: string)

  /** The ValueError of `context_name, event_name = reference.split('.')` when the split does not give two pieces. */
  datatype UnpackError = UnpackError(reference: string, pieces: nat)

  /** Resolve one event reference: split a string at its dot, or read an event class's context and name. */
  function Resolve(e: EventRef): Result<Subscription, UnpackError>
  {
    match e
    case Qualified(reference) =>
      var parts := Split(reference, '.');
      if |parts| == 2 then Ok(Subscription(parts[1], parts[0])) else Err(UnpackError(reference, |parts|))
    case EventClass(context, className) => Ok(Subscription(className, context))
  }

  /**
   * A string reference resolves exactly when it holds one dot, and then
   * `context + "." + name` gives the reference back.
   */
  lemma ResolveQualified(reference: string)
    ensures Resolve(Qualified(reference)).Ok? <==> Count(reference, '.') == 1
    ensures Resolve(Qualified(reference)).Ok? ==>
              var s := Resolve(Qualified(reference)).value;
              s.context + "." + s.name == reference && '.' !in s.context && '.' !in s.name
  {
    SplitLength(reference, '.');
    JoinSplit(reference, '.');
    var parts := Split(reference, '.');
    if |parts| == 2 {
      assert parts[1..] == [parts[1]];
    }
  }

  /** Every event reference of every listening service, in iteration order. */
  function AllRefs(listeners: seq<(string, seq<EventRef>)>): seq<EventRef>
    decreases |listeners|
  {
    if |listeners| == 0 then [] else AllRefs(listeners[..|listeners| - 1]) + listeners[|listeners| - 1].1
  }

  /** Resolve references in order; the first that fails to unpack raises. */
  function Flattened(refs: seq<EventRef>): Result<seq<Subscription>, UnpackError>
    decreases |refs|
  {
    if |refs| == 0 then Ok([])
    else
      match Flattened(refs[..|refs| - 1])
      case Err(e) => Err(e)
      case Ok(done) =>
        match Resolve(refs[|refs| - 1])
        case Err(e) => Err(e)
        case Ok(s) => Ok(done + [s])
  }

  lemma {:induction false} FlattenedAppend(a: seq<EventRef>, b: seq<EventRef>)
    ensures Flattened(a + b) == match Flattened(a)
                                case Err(e) => Err(e)
                                case Ok(l) => match Flattened(b)
                                              case Err(e) => Err(e)
                                              case Ok(l') => Ok(l + l')
    decreases |b|
  {
    if |b| == 0 {
      assert a + b == a;
      if Flattened(a).Ok? {
        assert Flattened(a).value + [] == Flattened(a).value;
      }
    } else {
      var b' := b[..|b| - 1];
      assert (a + b)[..|a + b| - 1] == a + b';
      assert (a + b)[|a + b| - 1] == b[|b| - 1];
      FlattenedAppend(a, b');
      if Flattened(a).Ok? && Flattened(b').Ok? && Resolve(b[|b| - 1]).Ok? {
        assert Flattened(a).value + (Flattened(b').value + [Resolve(b[|b| - 1]).value])
            == Flattened(a).value + Flattened(b').value + [Resolve(b[|b| - 1]).value];
      }
    }
  }

  /**
   * Flattening succeeds exactly when every reference resolves, and then
   * yields exactly one entry per reference, in order.
   */
  lemma {:induction false} FlattenedOnePerReference(refs: seq<EventRef>)
    ensures Flattened(refs).Ok? <==> forall k :: 0 <= k < |refs| ==> Resolve(refs[k]).Ok?
    ensures Flattened(refs).Ok? ==>
              |Flattened(refs).value| == |refs|
              && forall k :: 0 <= k < |refs| ==> Flattened(refs).value[k] == Resolve(refs[k]).value
    ensures Flattened(refs).Err? ==> exists k :: 0 <= k < |refs| && Resolve(refs[k]) == Err(Flattened(refs).error)
    decreases |refs|
  {
    if |refs| > 0 {
      var init := refs[..|refs| - 1];
      FlattenedOnePerReference(init);
      if Flattened(init).Err? {
        var k :| 0 <= k < |init| && Resolve(init[k]) == Err(Flattened(init).error);
        assert refs[k] == init[k];
      }
      assert forall k :: 0 <= k < |init| ==> refs[k] == init[k];
    }
  }

  /** `_get_subscriptions`: the nested loop over listening services and their event references. */
  method GetSubscriptions(listeners: seq<(string, seq<EventRef>)>) returns (r: Result<seq<Subscription>, UnpackError>)
    ensures r == Flattened(AllRefs(listeners))
  {
    var ret: seq<Subscription> := [];
    for i := 0 to |listeners|
      invariant Flattened(AllRefs(listeners[..i])) == Ok(ret)
    {
      assert listeners[..i + 1][..i] == listeners[..i];
      var eventTypes := listeners[i].1;
      assert AllRefs(listeners[..i + 1]) == AllRefs(listeners[..i]) + eventTypes;
      assert AllRefs(listeners[..i]) + eventTypes[..0] == AllRefs(listeners[..i]);
      for j := 0 to |eventTypes|
        invariant Flattened(AllRefs(listeners[..i]) + eventTypes[..j]) == Ok(ret)
      {
        var done := AllRefs(listeners[..i]) + eventTypes[..j];
        assert done + [eventTypes[j]] == AllRefs(listeners[..i]) + eventTypes[..j + 1];
        FlattenedSnoc(done, eventTypes[j], ret);
        var contextName, eventName;
        match eventTypes[j] {
          case Qualified(reference) =>
            var parts := Split(reference, '.');
            if |parts| != 2 {
              ErrorAbortsFlattening(listeners, i, j);
              return Err(UnpackError(reference, |parts|));
            }
            contextName, eventName := parts[0], parts[1];
          case EventClass(context, className) =>
            contextName, eventName := context, className;
        }
        ret := ret + [Subscription(eventName, contextName)];
      }
      assert eventTypes[..|eventTypes|] == eventTypes;
    }
    assert listeners[..|listeners|] == listeners;
    r := Ok(ret);
  }

  /** Flattening one more reference: its entry is appended, or its error is the result. */
  lemma FlattenedSnoc(done: seq<EventRef>, e: EventRef, ret: seq<Subscription>)
    requires Flattened(done) == Ok(ret)
    ensures Flattened(done + [e]) == if Resolve(e).Ok? then Ok(ret + [Resolve(e).value]) else Err(Resolve(e).error)
  {
    assert (done + [e])[..|done|] == done;
    assert (done + [e])[|done|] == e;
  }

  /** An unpack error at reference `j` of listener `i` is the error of the whole flattening. */
  lemma ErrorAbortsFlattening(listeners: seq<(string, seq<EventRef>)>, i: nat, j: nat)
    requires i < |listeners| && j < |listeners[i].1|
    requires Flattened(AllRefs(listeners[..i]) + listeners[i].1[..j + 1]).Err?
    ensures Flattened(AllRefs(listeners)) == Flattened(AllRefs(listeners[..i]) + listeners[i].1[..j + 1])
  {
    var eventTypes := listeners[i].1;
    var head := AllRefs(listeners[..i]) + eventTypes[..j + 1];
    AllRefsAppend(listeners[..i + 1], listeners[i + 1..]);
    assert listeners[..i + 1] + listeners[i + 1..] == listeners;
    assert listeners[..i + 1][..i] == listeners[..i];
    assert eventTypes == eventTypes[..j + 1] + eventTypes[j + 1..];
    assert AllRefs(listeners) == head + (eventTypes[j + 1..] + AllRefs(listeners[i + 1..]));
    FlattenedAppend(head, eventTypes[j + 1..] + AllRefs(listeners[i + 1..]));
  }

  lemma {:induction false} AllRefsAppend(a: seq<(string, seq<EventRef>)>, b: seq<(string, seq<EventRef>)>)
    ensures AllRefs(a + b) == AllRefs(a) + AllRefs(b)
    decreases |b|
  {
    if |b| == 0 {
      assert a + b == a;
    } else {
      var b' := b[..|b| - 1];
      assert (a + b)[..|a + b| - 1] == a + b';
      assert (a + b)[|a + b| - 1] == b[|b| - 1];
      AllRefsAppend(a, b');
    }
  }

  // ---------------------------------------------------------------------
  // Grouping by source context
  // ---------------------------------------------------------------------

  /** The `subscriptions` dictionary: its keys in insertion order, and its lists. */
  datatype Groups = Groups(keys: seq<string>, lists: map<string, seq<Subscription>>)

  /** The source contexts of `subs`, each once, in order of first appearance. */
  function SourceContexts(subs: seq<Subscription>): seq<string>
    decreases |subs|
  {
    if |subs| == 0 then []
    else
      var keys := SourceContexts(subs[..|subs| - 1]);
      if subs[|subs| - 1].context in keys then keys else keys + [subs[|subs| - 1].context]
  }

  /** The entries of `subs` whose source is `context`, in encounter order. */
  function OfContext(subs: seq<Subscription>, context: string): seq<Subscription>
    decreases |subs|
  {
    if |subs| == 0 then []
    else OfContext(subs[..|subs| - 1], context) + (if subs[|subs| - 1].context == context then [subs[|subs| - 1]] else [])
  }

  /** The grouping loop of the service deployment. */
  method GroupByContext(subs: seq<Subscription>) returns (g: Groups)
    ensures g.keys == SourceContexts(subs)
    ensures forall c :: c in g.lists <==> c in g.keys
    ensures forall c :: c in g.lists ==> g.lists[c] == OfContext(subs, c)
  {
    g := Groups([], map[]);
    for i := 0 to |subs|
      invariant g.keys == SourceContexts(subs[..i])
      invariant forall c :: c in g.lists <==> c in g.keys
      invariant forall c :: c in g.lists ==> g.lists[c] == OfContext(subs[..i], c)
    {
      assert subs[..i + 1][..i] == subs[..i];
      var subscription := subs[i];
      if subscription.context !in g.lists {
        g := g.(keys := g.keys + [subscription.context], lists := g.lists[subscription.context := []]);
        SourceContextsCover(subs[..i], subscription.context);
        OfContextEmpty(subs[..i], subscription.context);
      }
      g := g.(lists := g.lists[subscription.context := g.lists[subscription.context] + [subscription]]);
    }
    assert subs[..|subs|] == subs;
  }

  /** A context is a group key exactly when some entry comes from it. */
  lemma {:induction false} SourceContextsCover(subs: seq<Subscription>, context: string)
    ensures context in SourceContexts(subs) <==> exists k :: 0 <= k < |subs| && subs[k].context == context
    decreases |subs|
  {
    if |subs| > 0 {
      var init := subs[..|subs| - 1];
      SourceContextsCover(init, context);
      if exists k :: 0 <= k < |init| && init[k].context == context {
        var k :| 0 <= k < |init| && init[k].context == context;
        assert subs[k] == init[k];
      }
      if exists k :: 0 <= k < |subs| && subs[k].context == context {
        var k :| 0 <= k < |subs| && subs[k].context == context;
        if k < |init| {
          assert init[k] == subs[k];
        }
      }
    }
  }

  lemma {:induction false} OfContextEmpty(subs: seq<Subscription>, context: string)
    requires context !in SourceContexts(subs)
    ensures OfContext(subs, context) == []
    decreases |subs|
  {
    if |subs| > 0 {
      OfContextEmpty(subs[..|subs| - 1], context);
    }
  }

  predicate Distinct(keys: seq<string>)
  {
    forall i, j :: 0 <= i < j < |keys| ==> keys[i] != keys[j]
  }

  /** Group keys are distinct. */
  lemma {:induction false} SourceContextsDistinct(subs: seq<Subscription>)
    ensures Distinct(SourceContexts(subs))
    decreases |subs|
  {
    if |subs| > 0 {
      var init := subs[..|subs| - 1];
      SourceContextsDistinct(init);
      var keys := SourceContexts(init);
      var c := subs[|subs| - 1].context;
      if c !in keys {
        var all := keys + [c];
        assert SourceContexts(subs) == all;
        forall i, j | 0 <= i < j < |all| ensures all[i] != all[j] {
          assert all[i] == keys[i] && keys[i] in keys;
          if j < |keys| {
            assert all[j] == keys[j];
          }
        }
      } else {
        assert SourceContexts(subs) == keys;
      }
    }
  }

  /** An entry lands in the group of its own source context, and every group holds only its context's entries. */
  lemma {:induction false} OfContextMembers(subs: seq<Subscription>, context: string)
    ensures forall s :: s in OfContext(subs, context) <==> s in subs && s.context == context
    decreases |subs|
  {
    if |subs| > 0 {
      var init := subs[..|subs| - 1];
      OfContextMembers(init, context);
      assert subs == init + [subs[|subs| - 1]];
    }
  }

  /** No group is empty. */
  lemma GroupsNonEmpty(subs: seq<Subscription>, context: string)
    requires context in SourceContexts(subs)
    ensures |OfContext(subs, context)| > 0
  {
    SourceContextsCover(subs, context);
    var k :| 0 <= k < |subs| && subs[k].context == context;
    OfContextMembers(subs, context);
    assert subs[k] in OfContext(subs, context);
  }

  /** The total size of the groups named by `keys`. */
  function GroupSizes(subs: seq<Subscription>, keys: seq<string>): nat
    decreases |keys|
  {
    if |keys| == 0 then 0 else |OfContext(subs, keys[0])| + GroupSizes(subs, keys[1..])
  }

  lemma {:induction false} GroupSizesAdd(subs: seq<Subscription>, s: Subscription, keys: seq<string>)
    ensures GroupSizes(subs + [s], keys) == GroupSizes(subs, keys) + Occurrences(keys, s.context)
    decreases |keys|
  {
    if |keys| > 0 {
      assert (subs + [s])[..|subs + [s]| - 1] == subs;
      GroupSizesAdd(subs, s, keys[1..]);
    }
  }

  function Occurrences(keys: seq<string>, c: string): nat
    decreases |keys|
  {
    if |keys| == 0 then 0 else (if keys[0] == c then 1 else 0) + Occurrences(keys[1..], c)
  }

  lemma {:induction false} OccurrencesAppend(keys: seq<string>, x: string, c: string)
    ensures Occurrences(keys + [x], c) == Occurrences(keys, c) + (if x == c then 1 else 0)
    decreases |keys|
  {
    if |keys| > 0 {
      assert (keys + [x])[1..] == keys[1..] + [x];
      OccurrencesAppend(keys[1..], x, c);
    }
  }

  lemma {:induction false} GroupSizesAppendKey(subs: seq<Subscription>, keys: seq<string>, c: string)
    ensures GroupSizes(subs, keys + [c]) == GroupSizes(subs, keys) + |OfContext(subs, c)|
    decreases |keys|
  {
    if |keys| > 0 {
      assert (keys + [c])[1..] == keys[1..] + [c];
      GroupSizesAppendKey(subs, keys[1..], c);
    }
  }

  lemma {:induction false} OccurrencesOfMember(keys: seq<string>, c: string)
    requires c in keys
    requires Distinct(keys)
    ensures Occurrences(keys, c) == 1
    decreases |keys|
  {
    if keys[0] == c {
      OccurrencesAbsent(keys[1..], c);
    } else {
      OccurrencesOfMember(keys[1..], c);
    }
  }

  lemma {:induction false} OccurrencesAbsent(keys: seq<string>, c: string)
    requires c !in keys
    ensures Occurrences(keys, c) == 0
    decreases |keys|
  {
    if |keys| > 0 {
      OccurrencesAbsent(keys[1..], c);
    }
  }

  /** The groups partition the entries: their sizes add up to the number of entries. */
  lemma {:induction false} GroupsPartition(subs: seq<Subscription>)
    ensures GroupSizes(subs, SourceContexts(subs)) == |subs|
    decreases |subs|
  {
    if |subs| > 0 {
      var init, s := subs[..|subs| - 1], subs[|subs| - 1];
      var keys := SourceContexts(init);
      assert subs == init + [s];
      GroupsPartition(init);
      GroupSizesAdd(init, s, keys);
      SourceContextsDistinct(init);
      if s.context in keys {
        OccurrencesOfMember(keys, s.context);
      } else {
        OccurrencesAbsent(keys, s.context);
        GroupSizesAdd(init, s, keys + [s.context]);
        GroupSizesAppendKey(init, keys, s.context);
        OfContextEmpty(init, s.context);
        OccurrencesAppend(keys, s.context, s.context);
      }
    }
  }
}
