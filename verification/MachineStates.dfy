/** What the planner knows of a machine while it plans, and the key by which it compares candidates (planner.py). */
module MachineStates {
  import opened Sequences
  import opened Records
  import opened ProductionRules

  /** The value of a planner's machine state. */
  datatype View = View(
    machine: Machine, load: Option<real>, taskCount: nat, lastSignature: Option<Signature>, lastWidth: Option<real>)

  function QuantityKg(o: Order): Option<real> {
    match o.content.unit
    case Tonne => Some(o.content.quantity * 1000.0)
    case Kilogram => Some(o.content.quantity)
    case Gram => Some(o.content.quantity * 0.001)
    case Metre => None
    case OtherUnit(_) => None
  }

  function KgValue(o: Order): real {
    if QuantityKg(o).Some? then QuantityKg(o).value else 0.0
  }

  /** The total weight, unless some order has none. */
  function BatchKg(orders: seq<Order>): Option<real> {
    if exists o :: o in orders && QuantityKg(o).None? then None else Some(SumBy(KgValue, orders))
  }

  function ActiveTasks(m: LoadedMachine): seq<LoadedTask> {
    Filter((t: LoadedTask) => t.task.status != TaskDone, m.tasks)
  }

  function OrdersOfTasks(tasks: seq<LoadedTask>): seq<Order> {
    if tasks == [] then [] else OrdersOfTasks(tasks[..|tasks| - 1]) + tasks[|tasks| - 1].orders
  }

  function QueuedOrders(m: LoadedMachine): seq<Order> {
    OrdersOfTasks(ActiveTasks(m))
  }

  /** Whether loads must be compared by task count because some candidate or queued order has no weight. */
  predicate ByTaskCount(orders: seq<Order>, machines: seq<LoadedMachine>) {
    || (exists o :: o in orders && QuantityKg(o).None?)
    || (exists m :: m in machines && exists o :: o in QueuedOrders(m) && QuantityKg(o).None?)
  }

  predicate Later(a: LoadedTask, b: LoadedTask) {
    a.task.position > b.task.position || (a.task.position == b.task.position && a.task.id > b.task.id)
  }

  /** The task with the greatest position and id. */
  function LastTask(tasks: seq<LoadedTask>): (t: LoadedTask)
    requires tasks != []
    ensures t in tasks && forall u :: u in tasks ==> !Later(u, t)
  {
    assert forall u :: u in tasks <==> u == tasks[0] || u in tasks[1..];
    if |tasks| == 1 then tasks[0]
    else
      var t := LastTask(tasks[1..]);
      if Later(tasks[0], t) then tasks[0] else t
  }

  function LastSignature(m: LoadedMachine): (Option<Signature>, Option<real>) {
    var tasks := ActiveTasks(m);
    if tasks == [] then (None, None)
    else
      var orders := LastTask(tasks).orders;
      if orders == [] then (None, None)
      else
        var ps := ProfilesOf(orders);
        (Some(ps[0].signature), if exists p :: p in ps && p.width.None? then None else Some(TotalWidth(ps)))
  }

  function InitialView(m: LoadedMachine): View {
    var (signature, width) := LastSignature(m);
    View(m.machine, BatchKg(QueuedOrders(m)), |ActiveTasks(m)|, signature, width)
  }

  predicate Compatible(m: Machine, s: Signature) {
    m.active && SupportsCategory(m, s) && SupportsPattern(m, s)
  }

  /** The state after one more task. */
  function Loaded(v: View, signature: Signature, width: real, kg: Option<real>): View {
    View(v.machine,
         if v.load.Some? && kg.Some? then Some(v.load.value + kg.value) else None,
         v.taskCount + 1, Some(signature), Some(width))
  }

  // ----- the changeover key -----

  /** flags: the five changes of material, category, thickness, pattern and width; unused: the ratio in millionths. */
  datatype Key = Key(flags: seq<nat>, unused: int, load: real, name: seq<nat>, id: Id)

  function Flag(b: bool): nat { if b then 1 else 0 }

  /** Six decimals, halves to even. */
  function Round6(x: real): int {
    var scaled := x * 1000000.0;
    var whole := scaled.Floor;
    var part := scaled - whole as real;
    if part < 0.5 || (part == 0.5 && whole % 2 == 0) then whole else whole + 1
  }

  function ChangeoverKey(v: View, signature: Signature, width: real, kg: Option<real>, byCount: bool): Key
    requires v.machine.maxWidth > 0.0
    requires !byCount ==> v.load.Some? && kg.Some?
  {
    var last := v.lastSignature;
    Key([Flag(last.Some? && last.value.material != signature.material),
         Flag(last.Some? && last.value.categoryId != signature.categoryId),
         Flag(last.Some? && last.value.thickness != signature.thickness),
         Flag(last.Some? && CaseFold(last.value.pattern) != CaseFold(signature.pattern)),
         Flag(v.lastWidth.Some? && v.lastWidth.value != width)],
        Round6((v.machine.maxWidth - width) / v.machine.maxWidth),
        if byCount then (v.taskCount + 1) as real else v.load.value + kg.value,
        v.machine.name, v.machine.id)
  }

  predicate KeyLess(a: Key, b: Key) {
    || LexLess(a.flags, b.flags)
    || (a.flags == b.flags
        && (|| a.unused < b.unused
            || (a.unused == b.unused
                && (|| a.load < b.load
                    || (a.load == b.load
                        && (LexLess(a.name, b.name) || (a.name == b.name && a.id < b.id)))))))
  }

  /** Keys of different machines are strictly ordered. */
  lemma KeyLessTotal(a: Key, b: Key)
    ensures KeyLess(a, b) || KeyLess(b, a) || a == b
    ensures !(KeyLess(a, b) && KeyLess(b, a)) && !KeyLess(a, a)
  {
    LexTotal(a.flags, b.flags);
    LexTotal(a.name, b.name);
    LexAsymmetric(a.flags, b.flags);
    LexAsymmetric(a.name, b.name);
    LexIrreflexive(a.flags);
    LexIrreflexive(a.name);
  }

  lemma LexAsymmetric(a: seq<nat>, b: seq<nat>)
    ensures !(LexLess(a, b) && LexLess(b, a))
  {
    if LexLess(a, b) && LexLess(b, a) {
      LexTransitive(a, b, a);
      LexIrreflexive(a);
    }
  }

  lemma KeyLessTransitive(a: Key, b: Key, c: Key)
    requires KeyLess(a, b) && KeyLess(b, c)
    ensures KeyLess(a, c)
  {
    if LexLess(a.flags, b.flags) && LexLess(b.flags, c.flags) {
      LexTransitive(a.flags, b.flags, c.flags);
    }
    if LexLess(a.name, b.name) && LexLess(b.name, c.name) {
      LexTransitive(a.name, b.name, c.name);
    }
  }

  /** Among keys of different machines one is least. */
  lemma {:induction false} LeastKey(keys: map<Id, Key>) returns (id: Id)
    requires keys != map[] && forall j :: j in keys ==> keys[j].id == j
    ensures id in keys && forall j :: j in keys && j != id ==> KeyLess(keys[id], keys[j])
    decreases |keys|
  {
    id :| id in keys;
    var others := keys - {id};
    assert forall j :: j in keys && j != id ==> j in others;
    if others != map[] {
      assert others.Keys == keys.Keys - {id};
      var least := LeastKey(others);
      KeyLessTotal(keys[id], keys[least]);
      if KeyLess(keys[id], keys[least]) {
        forall j | j in others && j != least
          ensures KeyLess(keys[id], keys[j])
        {
          KeyLessTransitive(keys[id], keys[least], keys[j]);
        }
      } else {
        id := least;
      }
    }
  }

  /** Among the first i ids, the f-th has a key and every other key is greater. */
  ghost predicate LeastAmong(keys: map<Id, Key>, ids: seq<Id>, i: nat, f: nat)
    requires i <= |ids|
  {
    && f < i && ids[f] in keys
    && forall j :: 0 <= j < i && j != f && ids[j] in keys ==> KeyLess(keys[ids[f]], keys[ids[j]])
  }

  /** The search after i machines: nothing found and no key seen, or the least key seen and where. */
  ghost predicate Searched(keys: map<Id, Key>, ids: seq<Id>, i: nat, found: Option<nat>, least: Key)
    requires i <= |ids|
  {
    match found
    case None => forall j :: 0 <= j < i ==> ids[j] !in keys
    case Some(f) => LeastAmong(keys, ids, i, f) && least == keys[ids[f]]
  }

  /** A machine replaces the one found so far exactly when its key is less. */
  lemma SearchOneMore(keys: map<Id, Key>, ids: seq<Id>, i: nat, found: Option<nat>, least: Key, key: Option<Key>)
    requires i < |ids| && Searched(keys, ids, i, found, least)
    requires NoDuplicates(ids) && forall j :: j in keys ==> keys[j].id == j
    requires (key.Some? <==> ids[i] in keys) && (key.Some? ==> key.value == keys[ids[i]])
    ensures if key.Some? && (found.None? || KeyLess(key.value, least))
            then Searched(keys, ids, i + 1, Some(i), key.value)
            else Searched(keys, ids, i + 1, found, least)
  {
    if found.Some? && key.Some? {
      var a, b := least, key.value;
      KeyLessTotal(a, b);
      if KeyLess(b, a) {
        forall j | 0 <= j < i && j != found.value && ids[j] in keys
          ensures KeyLess(b, keys[ids[j]])
        {
          KeyLessTransitive(b, a, keys[ids[j]]);
        }
      }
    }
  }
}
