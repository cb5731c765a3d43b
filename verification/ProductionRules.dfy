/** Which orders one production task may combine on a machine (production_rules.py). */
module ProductionRules {
  import opened Sequences
  import opened Records
  import Specifications
  import Decimals

  datatype Signature = Signature(
    material: Option<string>, categoryId: Id, categoryName: string, thickness: Option<string>, pattern: string)

  datatype Profile = Profile(order: Order, width: Option<real>, signature: Signature)

  datatype RuleError =
    | MachineInactive | NoOrders | MixedUnits | UnsupportedCategory | UnsupportedPattern
    | MissingWidth | IncompleteForMerge | SignatureMismatch | WidthOutOfRange

  function CaseFold(s: string): string { Specifications.Lower(s) }

  /** The canonical thickness, or the text as it stands when its unit is not understood. */
  function NormalThickness(raw: string): string {
    match Specifications.Canonical(Specifications.Thickness, Specifications.Strip(raw))
    case Some(c) => c
    case None => raw
  }

  function SignatureOf(c: Content): Signature {
    Signature(
      if c.material == "" then None else Some(c.material),
      c.categoryId, c.categoryName,
      if c.thickness == "" then None else Some(NormalThickness(c.thickness)),
      c.pattern)
  }

  /** The width in millimetres, if the text states a positive number. */
  function WidthFrom(c: Content): Option<real> {
    match c.widthNumber
    case Some(n) => if n > 0.0 then Some(if c.inCentimetres then n * 10.0 else n) else None
    case None => None
  }

  function ProfileOf(order: Order): (p: Profile)
    ensures p.order == order && p.width == WidthFrom(order.content)
    ensures p.width.Some? <==> order.content.widthNumber.Some? && order.content.widthNumber.value > 0.0
    ensures p.width.Some? ==> p.width.value > 0.0
  {
    Profile(order, WidthFrom(order.content), SignatureOf(order.content))
  }

  function ProfilesOf(orders: seq<Order>): (r: seq<Profile>)
    ensures |r| == |orders| && forall i :: 0 <= i < |r| ==> r[i] == ProfileOf(orders[i])
  {
    seq(|orders|, i requires 0 <= i < |orders| => ProfileOf(orders[i]))
  }

  predicate CompleteForMerge(s: Signature) { s.material.Some? && s.thickness.Some? }

  predicate SameSignature(a: Signature, b: Signature) {
    && a.material == b.material && a.categoryId == b.categoryId && a.thickness == b.thickness
    && CaseFold(a.pattern) == CaseFold(b.pattern)
  }

  predicate IsMetre(p: Profile) { p.order.content.unit == Metre }

  function PatternNames(m: Machine): set<string> {
    set id | id in m.patterns :: CaseFold(Specifications.Strip(m.patterns[id]))
  }

  predicate SupportsCategory(m: Machine, s: Signature) { s.categoryId in m.categories }

  predicate SupportsPattern(m: Machine, s: Signature) {
    s.pattern == "" || CaseFold(s.pattern) in PatternNames(m)
  }

  function WidthValue(p: Profile): real {
    if p.width.Some? then p.width.value else 0.0
  }

  function TotalWidth(ps: seq<Profile>): real { SumBy(WidthValue, ps) }

  predicate OneUnitKind(ps: seq<Profile>)
    requires ps != []
  {
    forall p :: p in ps ==> IsMetre(p) == IsMetre(ps[0])
  }

  predicate AllCategories(m: Machine, ps: seq<Profile>) { forall p :: p in ps ==> SupportsCategory(m, p.signature) }
  predicate AllPatterns(m: Machine, ps: seq<Profile>) { forall p :: p in ps ==> SupportsPattern(m, p.signature) }
  predicate AllWidths(ps: seq<Profile>) { forall p :: p in ps ==> p.width.Some? }
  predicate AllComplete(ps: seq<Profile>) { forall p :: p in ps ==> CompleteForMerge(p.signature) }

  predicate OneSignature(ps: seq<Profile>)
    requires ps != []
  {
    forall p :: p in ps ==> SameSignature(ps[0].signature, p.signature)
  }

  function ValidateProfiles(m: Machine, ps: seq<Profile>): Result<real, RuleError> {
    if !m.active then Err(MachineInactive)
    else if ps == [] then Err(NoOrders)
    else if !OneUnitKind(ps) then Err(MixedUnits)
    else if !AllCategories(m, ps) then Err(UnsupportedCategory)
    else if !AllPatterns(m, ps) then Err(UnsupportedPattern)
    else if !AllWidths(ps) then Err(MissingWidth)
    else if |ps| > 1 && !AllComplete(ps) then Err(IncompleteForMerge)
    else if |ps| > 1 && !OneSignature(ps) then Err(SignatureMismatch)
    else
      var total := TotalWidth(ps);
      if total < m.minWidth || total > m.maxWidth then Err(WidthOutOfRange) else Ok(total)
  }

  /** The verdict on the orders of one task: their total width, or the first rule they break. */
  function ValidateBatch(m: Machine, orders: seq<Order>): Result<real, RuleError> {
    ValidateProfiles(m, ProfilesOf(orders))
  }

  /** The same rules with every pair of orders treated alike. */
  ghost predicate Acceptable(m: Machine, ps: seq<Profile>) {
    && m.active && ps != []
    && (forall p, q :: p in ps && q in ps ==> IsMetre(p) == IsMetre(q))
    && (forall p :: p in ps ==> SupportsCategory(m, p.signature) && SupportsPattern(m, p.signature) && p.width.Some?)
    && (|ps| > 1 ==> forall p :: p in ps ==> CompleteForMerge(p.signature))
    && (|ps| > 1 ==> forall p, q :: p in ps && q in ps ==> SameSignature(p.signature, q.signature))
    && m.minWidth <= TotalWidth(ps) <= m.maxWidth
  }

  lemma AcceptedExactlyWhen(m: Machine, ps: seq<Profile>)
    ensures ValidateProfiles(m, ps).Ok? <==> Acceptable(m, ps)
    ensures ValidateProfiles(m, ps).Ok? ==> ValidateProfiles(m, ps).value == TotalWidth(ps)
  {
    if ps != [] {
      assert ps[0] in ps;
    }
  }

  // ----- the rules in terms of what the orders ask for -----

  /** The width an order asks for, in millimetres. */
  function Millimetres(o: Order): real {
    match o.content.widthNumber
    case Some(n) => if o.content.inCentimetres then 10.0 * n else n
    case None => 0.0
  }

  predicate AsksForWidth(o: Order) { o.content.widthNumber.Some? && o.content.widthNumber.value > 0.0 }

  predicate FullyDescribed(o: Order) { o.content.material != "" && o.content.thickness != "" }

  /** What may run together, where knows says which orders' patterns the machine knows and same which orders agree. */
  ghost predicate Combines(m: Machine, orders: seq<Order>, knows: Order -> bool, same: (Order, Order) -> bool) {
    && m.active && orders != []
    && (forall a, b :: a in orders && b in orders ==> (a.content.unit == Metre <==> b.content.unit == Metre))
    && (forall a :: a in orders ==> a.content.categoryId in m.categories && knows(a) && AsksForWidth(a))
    && (|orders| > 1 ==> forall a :: a in orders ==> FullyDescribed(a))
    && (|orders| > 1 ==> forall a, b :: a in orders && b in orders ==> same(a, b))
    && m.minWidth <= SumBy(Millimetres, orders) <= m.maxWidth
  }

  /** The machine knows the pattern, whatever the case of its letters and the spaces around the machine's name for it. */
  ghost predicate KnowsPattern(m: Machine, pattern: string) {
    exists id :: id in m.patterns && Specifications.Lower(Specifications.Strip(m.patterns[id])) == Specifications.Lower(pattern)
  }

  ghost predicate SameProduct(a: Content, b: Content) {
    && a.material == b.material && a.categoryId == b.categoryId
    && NormalThickness(a.thickness) == NormalThickness(b.thickness)
    && Specifications.Lower(a.pattern) == Specifications.Lower(b.pattern)
  }

  /** What a machine may produce together. */
  ghost predicate MayCombine(m: Machine, orders: seq<Order>) {
    Combines(m, orders, (o: Order) => o.content.pattern != "" ==> KnowsPattern(m, o.content.pattern),
             (a: Order, b: Order) => SameProduct(a.content, b.content))
  }

  lemma {:induction false} WidthInMillimetres(orders: seq<Order>, ps: seq<Profile>)
    requires |ps| == |orders| && forall k :: 0 <= k < |orders| ==> ps[k].width == WidthFrom(orders[k].content) && AsksForWidth(orders[k])
    ensures TotalWidth(ps) == SumBy(Millimetres, orders)
  {
    if orders != [] {
      var n := |orders| - 1;
      WidthInMillimetres(orders[..n], ps[..n]);
    }
  }

  /** The profile says of the order what the rules ask. */
  ghost predicate Describes(m: Machine, p: Profile, o: Order, knows: Order -> bool) {
    && (IsMetre(p) <==> o.content.unit == Metre)
    && p.width == WidthFrom(o.content)
    && (SupportsCategory(m, p.signature) <==> o.content.categoryId in m.categories)
    && (SupportsPattern(m, p.signature) <==> knows(o))
    && (CompleteForMerge(p.signature) <==> FullyDescribed(o))
  }

  lemma {:induction false} ProfileDescribes(m: Machine, o: Order, knows: Order -> bool)
    requires knows(o) <==> (o.content.pattern != "" ==> KnowsPattern(m, o.content.pattern))
    ensures Describes(m, ProfileOf(o), o, knows)
  {
  }

  lemma SignaturesAgree(a: Order, b: Order)
    requires FullyDescribed(a) && FullyDescribed(b)
    ensures SameSignature(ProfileOf(a).signature, ProfileOf(b).signature) <==> SameProduct(a.content, b.content)
  {
  }

  lemma {:induction false} AcceptableCombines(m: Machine, orders: seq<Order>, ps: seq<Profile>, knows: Order -> bool, same: (Order, Order) -> bool)
    requires |ps| == |orders| && forall k :: 0 <= k < |ps| ==> Describes(m, ps[k], orders[k], knows)
    requires forall j, k :: 0 <= j < |ps| && 0 <= k < |ps| && FullyDescribed(orders[j]) && FullyDescribed(orders[k]) ==>
               (SameSignature(ps[j].signature, ps[k].signature) <==> same(orders[j], orders[k]))
    requires Acceptable(m, ps)
    ensures Combines(m, orders, knows, same) && TotalWidth(ps) == SumBy(Millimetres, orders)
  {
    forall k | 0 <= k < |orders|
      ensures AsksForWidth(orders[k])
    {
      assert ps[k] in ps;
    }
    WidthInMillimetres(orders, ps);
  }

  lemma {:induction false} CombinedIsAcceptable(m: Machine, orders: seq<Order>, ps: seq<Profile>, knows: Order -> bool, same: (Order, Order) -> bool)
    requires |ps| == |orders| && forall k :: 0 <= k < |ps| ==> Describes(m, ps[k], orders[k], knows)
    requires forall j, k :: 0 <= j < |ps| && 0 <= k < |ps| && FullyDescribed(orders[j]) && FullyDescribed(orders[k]) ==>
               (SameSignature(ps[j].signature, ps[k].signature) <==> same(orders[j], orders[k]))
    requires Combines(m, orders, knows, same)
    ensures Acceptable(m, ps)
  {
    forall k | 0 <= k < |orders|
      ensures orders[k] in orders && AsksForWidth(orders[k])
    {
    }
    WidthInMillimetres(orders, ps);
  }

  lemma {:induction false} CombinesExactlyWhen(m: Machine, orders: seq<Order>, ps: seq<Profile>, knows: Order -> bool, same: (Order, Order) -> bool)
    requires |ps| == |orders| && forall k :: 0 <= k < |ps| ==> Describes(m, ps[k], orders[k], knows)
    requires forall j, k :: 0 <= j < |ps| && 0 <= k < |ps| && FullyDescribed(orders[j]) && FullyDescribed(orders[k]) ==>
               (SameSignature(ps[j].signature, ps[k].signature) <==> same(orders[j], orders[k]))
    ensures Acceptable(m, ps) <==> Combines(m, orders, knows, same)
    ensures Acceptable(m, ps) ==> TotalWidth(ps) == SumBy(Millimetres, orders)
  {
    if Acceptable(m, ps) {
      AcceptableCombines(m, orders, ps, knows, same);
    }
    if Combines(m, orders, knows, same) {
      CombinedIsAcceptable(m, orders, ps, knows, same);
    }
  }

  lemma DescribedOrders(m: Machine, orders: seq<Order>, knows: Order -> bool, same: (Order, Order) -> bool)
    requires forall o :: knows(o) <==> (o.content.pattern != "" ==> KnowsPattern(m, o.content.pattern))
    requires forall a, b :: same(a, b) <==> SameProduct(a.content, b.content)
    ensures var ps := ProfilesOf(orders);
            && (forall k :: 0 <= k < |ps| ==> Describes(m, ps[k], orders[k], knows))
            && forall j, k :: 0 <= j < |ps| && 0 <= k < |ps| && FullyDescribed(orders[j]) && FullyDescribed(orders[k]) ==>
                 (SameSignature(ps[j].signature, ps[k].signature) <==> same(orders[j], orders[k]))
  {
    var ps := ProfilesOf(orders);
    forall k | 0 <= k < |ps|
      ensures Describes(m, ps[k], orders[k], knows)
    {
      ProfileDescribes(m, orders[k], knows);
    }
    forall j, k | 0 <= j < |ps| && 0 <= k < |ps| && FullyDescribed(orders[j]) && FullyDescribed(orders[k])
      ensures SameSignature(ps[j].signature, ps[k].signature) <==> same(orders[j], orders[k])
    {
      SignaturesAgree(orders[j], orders[k]);
    }
  }

  /** The rules accept exactly the orders that the machine may produce together, at the sum of their widths. */
  lemma AllowedExactlyWhen(m: Machine, orders: seq<Order>)
    ensures ValidateBatch(m, orders).Ok? <==> MayCombine(m, orders)
    ensures ValidateBatch(m, orders).Ok? ==> ValidateBatch(m, orders).value == SumBy(Millimetres, orders)
  {
    var knows := (o: Order) => o.content.pattern != "" ==> KnowsPattern(m, o.content.pattern);
    var same := (a: Order, b: Order) => SameProduct(a.content, b.content);
    var ps := ProfilesOf(orders);
    DescribedOrders(m, orders, knows, same);
    CombinesExactlyWhen(m, orders, ps, knows, same);
    AcceptedExactlyWhen(m, ps);
  }

  /** What is the matter when the rules complain. */
  ghost predicate Complaint(m: Machine, orders: seq<Order>, e: RuleError, knows: Order -> bool, same: (Order, Order) -> bool) {
    match e
    case MachineInactive => !m.active
    case NoOrders => orders == []
    case MixedUnits => exists a, b :: a in orders && b in orders && a.content.unit == Metre && b.content.unit != Metre
    case UnsupportedCategory => exists a :: a in orders && a.content.categoryId !in m.categories
    case UnsupportedPattern => exists a :: a in orders && !knows(a)
    case MissingWidth => exists a :: a in orders && !AsksForWidth(a)
    case IncompleteForMerge => |orders| > 1 && exists a :: a in orders && !FullyDescribed(a)
    case SignatureMismatch => exists a, b :: a in orders && b in orders && !same(a, b)
    case WidthOutOfRange => !(m.minWidth <= SumBy(Millimetres, orders) <= m.maxWidth)
  }

  lemma {:induction false} ComplaintHolds(m: Machine, orders: seq<Order>, ps: seq<Profile>, knows: Order -> bool, same: (Order, Order) -> bool)
    requires |ps| == |orders| && forall k :: 0 <= k < |ps| ==> Describes(m, ps[k], orders[k], knows)
    requires forall j, k :: 0 <= j < |ps| && 0 <= k < |ps| && FullyDescribed(orders[j]) && FullyDescribed(orders[k]) ==>
               (SameSignature(ps[j].signature, ps[k].signature) <==> same(orders[j], orders[k]))
    ensures ValidateProfiles(m, ps).Err? ==> Complaint(m, orders, ValidateProfiles(m, ps).error, knows, same)
  {
    forall p | p in ps
      ensures exists k :: 0 <= k < |orders| && ps[k] == p && orders[k] in orders
    {
      var k :| 0 <= k < |ps| && ps[k] == p;
      assert orders[k] in orders;
    }
    if ValidateProfiles(m, ps) == Err(WidthOutOfRange) {
      forall k | 0 <= k < |orders|
        ensures AsksForWidth(orders[k])
      {
        assert ps[k] in ps;
      }
      WidthInMillimetres(orders, ps);
    }
  }

  /** Each complaint of the rules is about something that is the case. */
  lemma ComplaintsAreTrue(m: Machine, orders: seq<Order>)
    ensures ValidateBatch(m, orders).Err? ==>
              Complaint(m, orders, ValidateBatch(m, orders).error,
                        (o: Order) => o.content.pattern != "" ==> KnowsPattern(m, o.content.pattern),
                        (a: Order, b: Order) => SameProduct(a.content, b.content))
  {
    var knows := (o: Order) => o.content.pattern != "" ==> KnowsPattern(m, o.content.pattern);
    var same := (a: Order, b: Order) => SameProduct(a.content, b.content);
    DescribedOrders(m, orders, knows, same);
    ComplaintHolds(m, orders, ProfilesOf(orders), knows, same);
  }

  /** A width in centimetres is the width of ten times the number in millimetres. */
  lemma WidthIgnoresUnit(cm: Content, mm: Content)
    requires cm.inCentimetres && !mm.inCentimetres
    requires cm.widthNumber.Some? && mm.widthNumber == Some(10.0 * cm.widthNumber.value)
    ensures WidthFrom(cm) == WidthFrom(mm)
  {
  }

  /** The verdict depends only on which profiles occur, how many there are, and their total width. */
  lemma VerdictFromElements(m: Machine, ps: seq<Profile>, qs: seq<Profile>)
    requires forall p :: p in ps <==> p in qs
    requires |ps| == |qs| && TotalWidth(ps) == TotalWidth(qs)
    ensures ValidateProfiles(m, ps) == ValidateProfiles(m, qs)
  {
    if ps != [] {
      assert ps[0] in ps && qs[0] in qs;
      assert OneUnitKind(ps) <==> OneUnitKind(qs);
      assert OneSignature(ps) <==> OneSignature(qs);
    }
  }

  /** Listing the orders of a batch differently changes neither the verdict, nor the width, nor the complaint. */
  lemma VerdictIgnoresOrder(m: Machine, a: seq<Order>, b: seq<Order>)
    requires multiset(a) == multiset(b)
    ensures ValidateBatch(m, a) == ValidateBatch(m, b)
  {
    SameElements(a, b);
    ProfileMembers(a);
    ProfileMembers(b);
    assert |a| == |multiset(a)| == |b|;
    WidthIgnoresOrder(a, b);
    VerdictFromElements(m, ProfilesOf(a), ProfilesOf(b));
  }

  lemma SameElements<T>(a: seq<T>, b: seq<T>)
    requires multiset(a) == multiset(b)
    ensures forall x :: x in a <==> x in b
  {
    assert forall x :: x in a <==> x in multiset(a);
    assert forall x :: x in b <==> x in multiset(b);
  }

  lemma ProfileMembers(orders: seq<Order>)
    ensures forall p: Profile :: p in ProfilesOf(orders) <==> p.order in orders && p == ProfileOf(p.order)
  {
    forall p: Profile | p.order in orders && p == ProfileOf(p.order)
      ensures p in ProfilesOf(orders)
    {
      var i :| 0 <= i < |orders| && orders[i] == p.order;
      assert ProfilesOf(orders)[i] == p;
    }
  }

  lemma {:induction false} TotalWidthOfOrders(orders: seq<Order>)
    ensures TotalWidth(ProfilesOf(orders)) == SumBy((o: Order) => WidthValue(ProfileOf(o)), orders)
  {
    if orders != [] {
      var front := orders[..|orders| - 1];
      TotalWidthOfOrders(front);
      assert ProfilesOf(orders)[..|orders| - 1] == ProfilesOf(front);
    }
  }

  lemma WidthIgnoresOrder(a: seq<Order>, b: seq<Order>)
    requires multiset(a) == multiset(b)
    ensures TotalWidth(ProfilesOf(a)) == TotalWidth(ProfilesOf(b))
  {
    TotalWidthOfOrders(a);
    TotalWidthOfOrders(b);
    SumByPermutation((o: Order) => WidthValue(ProfileOf(o)), a, b);
  }

  /** Thicknesses with understood units count as the same exactly when they state the same value. */
  lemma ThicknessMergesByValue(a: string, b: string)
    requires Specifications.Measured(Specifications.Thickness, Specifications.Strip(a)).Some?
    requires Specifications.Measured(Specifications.Thickness, Specifications.Strip(b)).Some?
    ensures NormalThickness(a) == NormalThickness(b)
            <==> Decimals.SameValue(
                   Specifications.Measured(Specifications.Thickness, Specifications.Strip(a)).value,
                   Specifications.Measured(Specifications.Thickness, Specifications.Strip(b)).value)
  {
    Specifications.CanonicalDecidesValue(
      Specifications.Thickness, Specifications.Strip(a), Specifications.Strip(b));
  }
}
