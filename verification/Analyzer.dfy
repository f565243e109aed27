/**
 * The analyzer's tasks over shared list objects. The detection round iterates
 * over a snapshot of references; that they are still the live lists at their
 * turn is what makes it refine AnalyzerBuffer.
 */
module Analyzer {
  import opened AnalyzerBuffer
  import opened OrderedMaps
  import opened Wrappers

  class MetricList<M> {
    var items: seq<M>

    constructor ()
      ensures items == []
    {
      items := [];
    }
  }

  /** No two services share a list, and each snapshot reference is the live list of its service. */
  ghost predicate Unshared<M>(lists: OrderedMap<MetricList<M>>, todo: seq<(string, MetricList<M>)>,
                              publishing: Option<(string, seq<M>)>, repr: set<MetricList<M>>)
  {
    && lists.Valid() && (forall k | k in lists.vals :: lists.vals[k] in repr)
    && (forall s, t | s in lists.vals && t in lists.vals && s != t :: lists.vals[s] != lists.vals[t])
    && (forall i | 0 <= i < |todo| :: todo[i].0 in lists.vals && todo[i].1 == lists.vals[todo[i].0])
    && (forall i, j | 0 <= i < j < |todo| :: todo[i].0 != todo[j].0)
    && (publishing.Some? ==>
          publishing.value.0 in lists.vals && forall i | 0 <= i < |todo| :: todo[i].0 != publishing.value.0)
  }

  /** The state without list objects has the same services, round and publish. */
  ghost predicate SameShape<M>(model: AnalyzerState<M>, lists: OrderedMap<MetricList<M>>,
                               todo: seq<(string, MetricList<M>)>, publishing: Option<(string, seq<M>)>)
  {
    && model.buffer.keys == lists.keys && model.buffer.vals.Keys == lists.vals.Keys
    && |model.todo| == |todo| && (forall i | 0 <= i < |todo| :: model.todo[i] == todo[i].0)
    && model.publishing == publishing
  }

  /** Putting a new list under a service that is not waiting for its turn. */
  lemma SetUnshared<M>(lists: OrderedMap<MetricList<M>>, todo: seq<(string, MetricList<M>)>,
                       publishing: Option<(string, seq<M>)>, repr: set<MetricList<M>>,
                       service: string, list: MetricList<M>)
    requires Unshared(lists, todo, publishing, repr) && list !in repr
    requires forall i | 0 <= i < |todo| :: todo[i].0 != service
    ensures Unshared(lists.Set(service, list), todo, publishing, repr + {list})
  {
    SetKeepsValid(lists, service, list);
  }

  /** A service's list is no other service's. */
  lemma OwnList<M>(lists: OrderedMap<MetricList<M>>, todo: seq<(string, MetricList<M>)>,
                   publishing: Option<(string, seq<M>)>, repr: set<MetricList<M>>, service: string)
    requires Unshared(lists, todo, publishing, repr) && lists.Has(service)
    ensures lists.Set(service, lists.vals[service]) == lists
    ensures forall k | k in lists.vals && k != service :: lists.vals[k] != lists.vals[service]
  {
    assert lists.vals[service := lists.vals[service]] == lists.vals;
  }

  lemma SetSameShape<M>(model: AnalyzerState<M>, lists: OrderedMap<MetricList<M>>,
                        todo: seq<(string, MetricList<M>)>, publishing: Option<(string, seq<M>)>,
                        service: string, list: MetricList<M>, items: seq<M>)
    requires SameShape(model, lists, todo, publishing)
    ensures SameShape(model.(buffer := model.buffer.Set(service, items)), lists.Set(service, list), todo, publishing)
  {
    assert service in model.buffer.vals <==> service in lists.vals;
    assert model.buffer.Set(service, items).vals.Keys == lists.Set(service, list).vals.Keys;
  }

  class MetricsBuffer<M> {
    var lists: OrderedMap<MetricList<M>>
    // The rest of the round's snapshot, and the publish being awaited.
    var todo: seq<(string, MetricList<M>)>
    var publishing: Option<(string, seq<M>)>
    // The same state without list objects, with the record of the run.
    ghost var model: AnalyzerState<M>
    ghost var repr: set<MetricList<M>>

    ghost predicate Valid()
      reads this, repr
    {
      && Unshared(lists, todo, publishing, repr)
      && SameShape(model, lists, todo, publishing)
      && forall k | k in lists.vals :: lists.vals[k] in repr && model.buffer.vals[k] == lists.vals[k].items
    }

    constructor ()
      ensures Valid() && model == Start()
    {
      lists, todo, publishing := OrderedMap([], map[]), [], None;
      model, repr := Start(), {};
    }

    /** `defaultdict(list)`: a missing list is created on first use. */
    method ListOf(service: string) returns (list: MetricList<M>)
      requires Valid()
      modifies `lists, `model, `repr
      ensures Valid() && fresh(repr - old(repr)) && lists.Has(service) && list == lists.vals[service]
      ensures model == old(model).(buffer := old(model).buffer.Set(service, Live(old(model), service)))
    {
      if !lists.Has(service) {
        list := new MetricList();
        Put(service, list);
      } else {
        list := lists.vals[service];
        assert model.buffer.Set(service, model.buffer.vals[service]) == model.buffer;
      }
    }

    /** Stores a new empty list under a service that is not waiting for its turn. */
    method Put(service: string, list: MetricList<M>)
      requires Valid() && list !in repr && list.items == []
      requires forall i | 0 <= i < |todo| :: todo[i].0 != service
      modifies `lists, `model, `repr
      ensures Valid() && repr == old(repr) + {list} && lists == old(lists).Set(service, list)
      ensures model == old(model).(buffer := old(model).buffer.Set(service, []))
    {
      SetUnshared(lists, todo, publishing, repr, service, list);
      SetSameShape(model, lists, todo, publishing, service, list, []);
      hide Unshared, SameShape;
      model := model.(buffer := model.buffer.Set(service, []));
      lists, repr := lists.Set(service, list), repr + {list};
    }

    /** `append` on a live list: no other service's list changes. */
    method Append(service: string, list: MetricList<M>, metric: M)
      requires Valid() && lists.Has(service) && list == lists.vals[service]
      modifies list, `model
      ensures Valid() && list.items == old(list.items) + [metric]
      ensures model == old(model).(buffer := old(model).buffer.Set(service, old(list.items) + [metric]))
    {
      hide Unshared, SameShape;
      SetSameShape(model, lists, todo, publishing, service, list, list.items + [metric]);
      OwnList(lists, todo, publishing, repr, service);
      list.items := list.items + [metric];
      model := model.(buffer := model.buffer.Set(service, list.items));
    }

    /** `metrics_buffer[service_id].append(metric)`. */
    method Consume(service: string, metric: M)
      requires Valid()
      modifies this, repr
      ensures Valid() && model == Step(old(model), Event.Consume(service, metric))
      ensures fresh(repr - old(repr))
    {
      hide Unshared, SameShape;
      ghost var before := model;
      var list := ListOf(service);
      assert list.items == Live(before, service);
      Append(service, list, metric);
      Record(Step(before, Event.Consume(service, metric)));
    }

    /** `list(metrics_buffer.items())`. */
    method StartRound()
      requires Valid() && todo == [] && publishing == None
      modifies `todo, `model
      ensures Valid() && model == Step(old(model), Event.StartRound)
    {
      var current := lists;
      assert forall k :: k in current.keys <==> k in current.vals;
      todo := seq(|current.keys|, i requires 0 <= i < |current.keys| && current.keys[i] in current.vals =>
                                    (current.keys[i], current.vals[current.keys[i]]));
      model := Step(model, Event.StartRound);
    }

    /** `metrics_buffer[service_id] = []`. */
    method Clear(service: string)
      requires Valid() && forall i | 0 <= i < |todo| :: todo[i].0 != service
      modifies `lists, `model, `repr
      ensures Valid() && fresh(repr - old(repr))
      ensures model == old(model).(buffer := old(model).buffer.Set(service, []))
    {
      hide Unshared, SameShape;
      var empty := new MetricList();
      Put(service, empty);
    }

    /** Records in the model what only the record of the run sees. */
    ghost method Record(next: AnalyzerState<M>)
      requires Valid() && next.buffer == model.buffer && next.todo == model.todo && next.publishing == model.publishing
      modifies `model
      ensures Valid() && model == next
    {
      model := next;
    }

    lemma Due()
      requires Valid()
      ensures (todo == [] <==> model.todo == []) && publishing == model.publishing
    {}

    /** Takes the next pair of the snapshot and reads the list through its reference. */
    method Next() returns (service: string, metrics: seq<M>)
      requires Valid() && todo != []
      modifies `todo, `model
      ensures Valid() && model == old(model).(todo := old(model).todo[1..])
      ensures service == old(model).todo[0] && metrics == Live(old(model), service) && lists.Has(service)
      ensures forall i | 0 <= i < |todo| :: todo[i].0 != service
    {
      var (name, list) := todo[0];
      service, metrics := name, list.items;
      todo := todo[1..];
      model := model.(todo := model.todo[1..]);
    }

    /**
     * The loop body up to its await: the snapshot's own list is measured and
     * analysed. `given` is the call of the detector.
     */
    method Turn(verdict: Verdict) returns (given: Option<(string, seq<M>)>)
      requires Valid() && todo != [] && publishing == None
      modifies this
      ensures Valid() && model == Step(old(model), Event.Turn(verdict))
      ensures fresh(repr - old(repr)) && old(model).todo != []
      ensures var service := old(model).todo[0];
              given == if |Live(old(model), service)| < 2 then None else Some((service, Live(old(model), service)))
    {
      hide Unshared, SameShape;
      Due();
      ghost var before := model;
      var service, metrics := Next();
      if |metrics| < 2 {
        return None;
      }
      given := Some((service, metrics));
      if verdict == Raises {
        return;
      }
      if verdict == Anomaly {
        Await(service, metrics);
      } else {
        Clear(service);
      }
      Record(StepTurn(before, verdict));
    }

    /** Suspends at the publish. */
    method Await(service: string, metrics: seq<M>)
      requires Valid() && lists.Has(service) && forall i | 0 <= i < |todo| :: todo[i].0 != service
      modifies `publishing, `model
      ensures Valid() && model == old(model).(publishing := Some((service, metrics)))
    {
      publishing := Some((service, metrics));
      model := model.(publishing := publishing);
    }

    /** Resumes after the publish. */
    method Resume() returns (service: string)
      requires Valid() && publishing.Some?
      modifies `publishing, `model
      ensures Valid() && model == old(model).(publishing := None)
      ensures old(model).publishing.Some? && service == old(model).publishing.value.0
      ensures forall i | 0 <= i < |todo| :: todo[i].0 != service
    {
      service := publishing.value.0;
      publishing := None;
      model := model.(publishing := None);
    }

    /** The section after the await; a failed publish keeps the list. */
    method PublishDone(ok: bool)
      requires Valid() && publishing.Some? && model.publishing.Some?
      modifies this
      ensures Valid() && model == Step(old(model), Event.PublishDone(ok))
      ensures fresh(repr - old(repr))
    {
      hide Unshared, SameShape;
      Due();
      ghost var before := model;
      var service := Resume();
      if ok {
        Clear(service);
      }
      Record(StepPublished(before, ok));
    }

    /** One section, when it is due. */
    method Perform(e: Event<M>)
      requires Valid()
      modifies this, repr
      ensures Valid() && model == Step(old(model), e) && fresh(repr - old(repr))
    {
      hide Unshared, StepConsume, StepTurn, StepPublished;
      match e {
        case Consume(service, metric) => Consume(service, metric);
        case StartRound => if todo == [] && publishing == None { StartRound(); }
        case Turn(verdict) => if todo != [] && publishing == None { var given := Turn(verdict); }
        case PublishDone(ok) => if publishing.Some? { PublishDone(ok); }
      }
    }

    /** Any order in which the event loop may run the sections of the two tasks. */
    method RunSchedule(es: seq<Event<M>>)
      requires Valid()
      modifies this, repr
      ensures Valid() && model == Run(old(model), es)
    {
      assert es[0..] == es;
      for i := 0 to |es|
        invariant Valid() && Run(model, es[i..]) == Run(old(model), es)
        invariant fresh(repr - old(repr))
      {
        hide Valid, Step;
        assert es[i..][0] == es[i] && es[i..][1..] == es[i + 1..];
        Perform(es[i]);
      }
    }
  }
}
