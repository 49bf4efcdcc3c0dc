/** Which symbol a call written inside a class is credited to. The walker takes
    the calls of each indexed member from the member's node, and those of the
    class from its node with the members cut out. */
module CallAttribution {
  import opened Protocol

  type Id = nat

  /** What a node is as a statement of a class body. A class may lack a name or a
      body; methods are named, and include fields whose value is a function. */
  datatype Role = ClassRole(named: bool, body: Option<Id>) | MethodRole | OtherRole

  /** A syntax tree. `call` is the dotted name a call node calls, if it is one. */
  datatype Tree = Tree(id: Id, call: Option<string>, role: Role, kids: Forest)
  datatype Forest = Nil | Cons(head: Tree, tail: Forest)

  // ----- trees

  function Subtrees(t: Tree): set<Tree> {
    {t} + SubtreesOf(t.kids)
  }

  function SubtreesOf(f: Forest): set<Tree> {
    match f
    case Nil => {}
    case Cons(head, tail) => Subtrees(head) + SubtreesOf(tail)
  }

  /** The nodes that are calls of a dotted name. */
  function Calls(t: Tree): set<Id> {
    (if t.call.Some? then {t.id} else {}) + CallsOf(t.kids)
  }

  function CallsOf(f: Forest): set<Id> {
    match f
    case Nil => {}
    case Cons(head, tail) => Calls(head) + CallsOf(tail)
  }

  function Ids(t: Tree): set<Id> {
    {t.id} + IdsOf(t.kids)
  }

  function IdsOf(f: Forest): set<Id> {
    match f
    case Nil => {}
    case Cons(head, tail) => Ids(head) + IdsOf(tail)
  }

  /** No two nodes have the same id. */
  predicate Unique(t: Tree) {
    t.id !in IdsOf(t.kids) && UniqueIn(t.kids)
  }

  predicate UniqueIn(f: Forest) {
    match f
    case Nil => true
    case Cons(head, tail) => Unique(head) && UniqueIn(tail) && Ids(head) !! IdsOf(tail)
  }

  function Size(t: Tree): (n: nat)
    ensures n > 0
  {
    1 + SizeOf(t.kids)
  }

  function SizeOf(f: Forest): nat {
    match f
    case Nil => 0
    case Cons(head, tail) => Size(head) + SizeOf(tail)
  }

  function Find(t: Tree, id: Id): Option<Tree> {
    if t.id == id then Some(t) else FindIn(t.kids, id)
  }

  function FindIn(f: Forest, id: Id): Option<Tree> {
    match f
    case Nil => None
    case Cons(head, tail) => if Find(head, id).Some? then Find(head, id) else FindIn(tail, id)
  }

  // ----- the walk

  /** The call nodes of `t` outside the subtrees whose root is in `prune`. */
  function Unpruned(t: Tree, prune: set<Id>): set<Id> {
    if t.id in prune then {}
    else (if t.call.Some? then {t.id} else {}) + UnprunedOf(t.kids, prune)
  }

  function UnprunedOf(f: Forest, prune: set<Id>): set<Id> {
    match f
    case Nil => {}
    case Cons(head, tail) => Unpruned(head, prune) + UnprunedOf(tail, prune)
  }

  function UnprunedAll(stack: seq<Tree>, prune: set<Id>): set<Id> {
    if stack == [] then {} else UnprunedAll(stack[..|stack| - 1], prune) + Unpruned(stack[|stack| - 1], prune)
  }

  function SizeAll(stack: seq<Tree>): nat {
    if stack == [] then 0 else SizeAll(stack[..|stack| - 1]) + Size(stack[|stack| - 1])
  }

  /** The walk with an explicit stack. */
  method Walk(root: Tree, prune: set<Id>) returns (out: set<Id>)
    ensures out == Unpruned(root, prune)
  {
    out := {};
    var stack := [root];
    assert stack[..0] == [];
    while stack != []
      invariant out + UnprunedAll(stack, prune) == Unpruned(root, prune)
      decreases SizeAll(stack)
    {
      var node := stack[|stack| - 1];
      stack := stack[..|stack| - 1];
      if node.id !in prune {
        if node.call.Some? {
          out := out + {node.id};
        }
        stack := Push(stack, node.kids, prune);
      }
    }
  }

  method Push(stack: seq<Tree>, kids: Forest, ghost prune: set<Id>) returns (r: seq<Tree>)
    ensures UnprunedAll(r, prune) == UnprunedAll(stack, prune) + UnprunedOf(kids, prune)
    ensures SizeAll(r) == SizeAll(stack) + SizeOf(kids)
  {
    r := stack;
    var rest := kids;
    while rest.Cons?
      invariant UnprunedAll(r, prune) + UnprunedOf(rest, prune) == UnprunedAll(stack, prune) + UnprunedOf(kids, prune)
      invariant SizeAll(r) + SizeOf(rest) == SizeAll(stack) + SizeOf(kids)
      decreases rest
    {
      assert (r + [rest.head])[..|r|] == r;
      r := r + [rest.head];
      rest := rest.tail;
    }
  }

  // ----- classes and members

  /** A class that is extracted: it has a name and a body below its node. */
  predicate HasBody(c: Tree) {
    && c.role.ClassRole? && c.role.named && c.role.body.Some?
    && c.role.body.value != c.id && Find(c, c.role.body.value).Some?
  }

  function Members(c: Tree): Forest
    requires HasBody(c)
  {
    Find(c, c.role.body.value).value.kids
  }

  predicate IsMember(t: Tree) {
    !t.role.OtherRole?
  }

  function MemberIds(f: Forest): set<Id> {
    match f
    case Nil => {}
    case Cons(head, tail) => (if IsMember(head) then {head.id} else {}) + MemberIds(tail)
  }

  lemma {:induction false} FoundSmaller(t: Tree, id: Id)
    ensures Find(t, id).Some? ==> Size(Find(t, id).value) <= Size(t) && (id != t.id ==>
        Size(Find(t, id).value) < Size(t))
    ensures Find(t, id).Some? ==> Find(t, id).value in Subtrees(t)
  {
    if t.id != id {
      FoundSmallerIn(t.kids, id);
    }
  }

  lemma {:induction false} FoundSmallerIn(f: Forest, id: Id)
    ensures FindIn(f, id).Some? ==> Size(FindIn(f, id).value) <= SizeOf(f) && FindIn(f, id).value in SubtreesOf(f)
  {
    if f.Cons? {
      FoundSmaller(f.head, id);
      FoundSmallerIn(f.tail, id);
    }
  }

  lemma MembersSmaller(c: Tree)
    requires HasBody(c)
    ensures SizeOf(Members(c)) < Size(c)
  {
    FoundSmaller(c, c.role.body.value);
  }

  datatype Credit = Credit(owner: Tree, call: Id)

  function Credited(owner: Tree, calls: set<Id>): set<Credit> {
    set x | x in calls :: Credit(owner, x)
  }

  /** What extracting a class credits, to it and to its members. */
  function Credits(c: Tree): set<Credit>
    decreases Size(c), 0
  {
    if !HasBody(c) then {}
    else
      MembersSmaller(c);
      MemberCredits(Members(c)) + Credited(c, Unpruned(c, MemberIds(Members(c))))
  }

  function MemberCredits(f: Forest): set<Credit>
    decreases SizeOf(f), 1
  {
    match f
    case Nil => {}
    case Cons(head, tail) =>
      (match head.role
       case ClassRole(_, _) => Credits(head)
       case MethodRole => Credited(head, Unpruned(head, {}))
       case OtherRole => {}) + MemberCredits(tail)
  }

  /** Extracts a class: first its members, one by one, then the calls that are
      left to the class itself. */
  method ExtractClass(c: Tree) returns (credits: set<Credit>)
    ensures credits == Credits(c)
    decreases Size(c)
  {
    if !HasBody(c) {
      return {};
    }
    credits := {};
    var prune: set<Id> := {};
    MembersSmaller(c);
    var rest := Members(c);
    while rest.Cons?
      invariant SizeOf(rest) < Size(c)
      invariant credits + MemberCredits(rest) == MemberCredits(Members(c))
      invariant prune + MemberIds(rest) == MemberIds(Members(c))
      decreases rest
    {
      var member := rest.head;
      if member.role.ClassRole? {
        prune := prune + {member.id};
        var inner := ExtractClass(member);
        credits := credits + inner;
      } else if member.role.MethodRole? {
        prune := prune + {member.id};
        var calls := Walk(member, {});
        credits := credits + Credited(member, calls);
      }
      rest := rest.tail;
    }
    var own := Walk(c, prune);
    credits := credits + Credited(c, own);
  }

  // ----- the innermost member

  /** The nodes of a class for which a symbol is recorded. */
  function Indexed(c: Tree): set<Tree>
    decreases Size(c), 0
  {
    if !HasBody(c) then {}
    else
      MembersSmaller(c);
      {c} + IndexedIn(Members(c))
  }

  function IndexedIn(f: Forest): set<Tree>
    decreases SizeOf(f), 1
  {
    match f
    case Nil => {}
    case Cons(head, tail) =>
      (match head.role
       case ClassRole(_, _) => Indexed(head)
       case MethodRole => {head}
       case OtherRole => {}) + IndexedIn(tail)
  }

  /** The call lies in a class, `c` or one among its members at any depth, that is
      not extracted for want of a name or a body. */
  predicate Lost(c: Tree, call: Id)
    decreases Size(c), 0
  {
    if !HasBody(c) then call in Calls(c)
    else
      MembersSmaller(c);
      LostIn(Members(c), call)
  }

  predicate LostIn(f: Forest, call: Id)
    decreases SizeOf(f), 1
  {
    f.Cons? && ((f.head.role.ClassRole? && Lost(f.head, call)) || LostIn(f.tail, call))
  }

  /** `owner` contains `call`, and every other indexed node that does contains
      `owner`. */
  ghost predicate Innermost(c: Tree, owner: Tree, call: Id)
  {
    && owner in Indexed(c) && call in Calls(owner)
    && forall other | other in Indexed(c) && call in Calls(other) :: owner in Subtrees(other)
  }

  // ----- lemmas on trees

  lemma {:induction false} SubtreeHolds(t: Tree, s: Tree)
    requires s in Subtrees(t)
    ensures Ids(s) <= Ids(t) && Calls(s) <= Calls(t) && Subtrees(s) <= Subtrees(t)
    ensures Unique(t) ==> Unique(s)
    ensures Size(s) <= Size(t) && (s != t ==> Size(s) < Size(t))
  {
    if s != t {
      SubtreeHoldsIn(t.kids, s);
    }
  }

  lemma {:induction false} SubtreeHoldsIn(f: Forest, s: Tree)
    requires s in SubtreesOf(f)
    ensures Ids(s) <= IdsOf(f) && Calls(s) <= CallsOf(f) && Subtrees(s) <= SubtreesOf(f)
    ensures UniqueIn(f) ==> Unique(s)
    ensures Size(s) <= SizeOf(f)
  {
    if s in Subtrees(f.head) {
      SubtreeHolds(f.head, s);
    } else {
      SubtreeHoldsIn(f.tail, s);
    }
  }

  lemma {:induction false} CallsAreIds(t: Tree)
    ensures Calls(t) <= Ids(t)
  {
    CallsAreIdsOf(t.kids);
  }

  lemma {:induction false} CallsAreIdsOf(f: Forest)
    ensures CallsOf(f) <= IdsOf(f)
  {
    if f.Cons? {
      CallsAreIds(f.head);
      CallsAreIdsOf(f.tail);
    }
  }

  /** In a tree without repeated ids a node is known by its id. */
  lemma {:induction false} SameId(t: Tree, a: Tree, b: Tree)
    requires Unique(t) && a in Subtrees(t) && b in Subtrees(t) && a.id == b.id
    ensures a == b
  {
    if a != t && b != t {
      SameIdIn(t.kids, a, b);
    } else if a != t {
      SubtreeHoldsIn(t.kids, a);
    } else if b != t {
      SubtreeHoldsIn(t.kids, b);
    }
  }

  lemma {:induction false} SameIdIn(f: Forest, a: Tree, b: Tree)
    requires UniqueIn(f) && a in SubtreesOf(f) && b in SubtreesOf(f) && a.id == b.id
    ensures a == b
  {
    if a in Subtrees(f.head) {
      SubtreeHolds(f.head, a);
      if b in Subtrees(f.head) {
        SameId(f.head, a, b);
      } else {
        SubtreeHoldsIn(f.tail, b);
      }
    } else {
      SubtreeHoldsIn(f.tail, a);
      if b in Subtrees(f.head) {
        SubtreeHolds(f.head, b);
      } else {
        SameIdIn(f.tail, a, b);
      }
    }
  }

  /** A call is left by the walk unless a pruned node contains it. */
  lemma {:induction false} UnprunedMeans(t: Tree, prune: set<Id>, call: Id)
    requires Unique(t)
    ensures call in Unpruned(t, prune) <==>
            call in Calls(t) && forall s | s in Subtrees(t) && s.id in prune :: call !in Calls(s)
  {
    CallsAreIdsOf(t.kids);
    if t.id in prune {
      assert t in Subtrees(t);
    } else {
      UnprunedMeansIn(t.kids, prune, call);
      forall s | s in SubtreesOf(t.kids)
        ensures call in Calls(s) ==> call in CallsOf(t.kids)
      {
        SubtreeHoldsIn(t.kids, s);
      }
    }
  }

  lemma {:induction false} UnprunedMeansIn(f: Forest, prune: set<Id>, call: Id)
    requires UniqueIn(f)
    ensures call in UnprunedOf(f, prune) <==>
            call in CallsOf(f) && forall s | s in SubtreesOf(f) && s.id in prune :: call !in Calls(s)
  {
    if f.Cons? {
      UnprunedMeans(f.head, prune, call);
      UnprunedMeansIn(f.tail, prune, call);
      CallsAreIds(f.head);
      CallsAreIdsOf(f.tail);
      forall s | s in Subtrees(f.head)
        ensures call in Calls(s) ==> call in Calls(f.head)
      {
        SubtreeHolds(f.head, s);
      }
      forall s | s in SubtreesOf(f.tail)
        ensures call in Calls(s) ==> call in CallsOf(f.tail)
      {
        SubtreeHoldsIn(f.tail, s);
      }
    }
  }

  // ----- who is credited

  /** Some indexed member of the list contains `call`. */
  predicate Covered(f: Forest, call: Id) {
    f.Cons? && ((IsMember(f.head) && call in Calls(f.head)) || Covered(f.tail, call))
  }

  ghost predicate InnermostIn(f: Forest, owner: Tree, call: Id)
  {
    && owner in IndexedIn(f) && call in Calls(owner)
    && forall other | other in IndexedIn(f) && call in Calls(other) :: owner in Subtrees(other)
  }

  lemma {:induction false} IndexedInside(c: Tree, s: Tree)
    requires s in Indexed(c)
    ensures s in Subtrees(c)
    decreases Size(c), 0
  {
    if s != c {
      MembersSmaller(c);
      IndexedInsideIn(Members(c), s);
      FoundSmaller(c, c.role.body.value);
      SubtreeHolds(c, Find(c, c.role.body.value).value);
    }
  }

  lemma {:induction false} IndexedInsideIn(f: Forest, s: Tree)
    requires s in IndexedIn(f)
    ensures s in SubtreesOf(f)
    ensures forall call | call in Calls(s) :: Covered(f, call)
    decreases SizeOf(f), 1
  {
    if s in IndexedIn(f.tail) {
      IndexedInsideIn(f.tail, s);
    } else if f.head.role.ClassRole? {
      IndexedInside(f.head, s);
      SubtreeHolds(f.head, s);
    }
  }

  lemma {:induction false} AmongCovers(f: Forest, s: Tree, call: Id)
    requires Among(f, s) && call in Calls(s)
    ensures Covered(f, call)
  {
    if !(f.head == s && IsMember(s)) {
      AmongCovers(f.tail, s, call);
    }
  }

  lemma {:induction false} CoveredAmong(f: Forest, call: Id) returns (s: Tree)
    requires Covered(f, call)
    ensures Among(f, s) && call in Calls(s)
  {
    s := f.head;
    if !(IsMember(f.head) && call in Calls(f.head)) {
      s := CoveredAmong(f.tail, call);
    }
  }

  lemma {:induction false} AmongHolds(f: Forest, s: Tree)
    requires Among(f, s)
    ensures s in SubtreesOf(f) && s.id in MemberIds(f)
  {
    if !(f.head == s && IsMember(s)) {
      AmongHolds(f.tail, s);
    }
  }

  /** `s` is an indexed member of the list. */
  predicate Among(f: Forest, s: Tree) {
    f.Cons? && ((f.head == s && IsMember(s)) || Among(f.tail, s))
  }

  lemma {:induction false} MemberOfId(f: Forest, id: Id) returns (s: Tree)
    requires id in MemberIds(f)
    ensures s in SubtreesOf(f) && s.id == id && Among(f, s)
  {
    if IsMember(f.head) && f.head.id == id {
      s := f.head;
    } else {
      s := MemberOfId(f.tail, id);
    }
  }

  /** What is left to the class are the calls no indexed member contains. */
  lemma LeftToClass(c: Tree, call: Id)
    requires HasBody(c) && Unique(c)
    ensures call in Unpruned(c, MemberIds(Members(c))) <==> call in Calls(c) && !Covered(Members(c), call)
  {
    var f := Members(c);
    MembersInside(c);
    UnprunedMeans(c, MemberIds(f), call);
    if Covered(f, call) {
      var s := CoveredAmong(f, call);
      AmongHolds(f, s);
    }
    forall s | s in Subtrees(c) && s.id in MemberIds(f) && call in Calls(s)
      ensures Covered(f, call)
    {
      var m := MemberOfId(f, s.id);
      SameId(c, s, m);
      AmongCovers(f, s, call);
    }
  }

  lemma MembersInside(c: Tree)
    requires HasBody(c)
    ensures SubtreesOf(Members(c)) <= Subtrees(c) && CallsOf(Members(c)) <= Calls(c)
    ensures Unique(c) ==> UniqueIn(Members(c))
    ensures forall s | s in SubtreesOf(Members(c)) :: Size(s) < Size(c)
  {
    FoundSmaller(c, c.role.body.value);
    SubtreeHolds(c, Find(c, c.role.body.value).value);
    forall s | s in SubtreesOf(Members(c))
      ensures Size(s) < Size(c)
    {
      SubtreeHoldsIn(Members(c), s);
      MembersSmaller(c);
    }
  }

  /** What is lost lies in the class, in one of its members. */
  lemma {:induction false} LostInside(c: Tree, call: Id)
    requires Lost(c, call)
    ensures call in Calls(c)
    decreases Size(c), 0
  {
    if HasBody(c) {
      MembersSmaller(c);
      MembersInside(c);
      LostCovered(Members(c), call);
    }
  }

  lemma {:induction false} LostCovered(f: Forest, call: Id)
    requires LostIn(f, call)
    ensures Covered(f, call) && call in CallsOf(f)
    decreases SizeOf(f), 1
  {
    if f.head.role.ClassRole? && Lost(f.head, call) {
      LostInside(f.head, call);
    } else {
      LostCovered(f.tail, call);
    }
  }

  /** The credits of a list of members go to the innermost indexed node. */
  lemma {:induction false} MembersCredited(f: Forest, owner: Tree, call: Id)
    requires UniqueIn(f)
    ensures Credit(owner, call) in MemberCredits(f) <==> InnermostIn(f, owner, call) && !LostIn(f, call)
    decreases SizeOf(f), 2
  {
    if f.Cons? {
      MembersCredited(f.tail, owner, call);
      HeadCredited(f.head, owner, call);
      HeadOrTail(f, call);
      if call in Calls(f.head) {
        assert !InnermostIn(f.tail, owner, call);
      } else {
        forall o | o in IndexedIn(f) && call in Calls(o)
          ensures o in IndexedIn(f.tail)
        {
        }
      }
    }
  }

  /** A call lies in the head or in the tail, and so do the nodes containing it. */
  lemma HeadOrTail(f: Forest, call: Id)
    requires f.Cons? && UniqueIn(f)
    ensures call in Calls(f.head) ==> !LostIn(f.tail, call) && forall o | o in IndexedIn(f.tail) :: call !in Calls(o)
    ensures f.head.role.ClassRole? ==>
              forall o | o in Indexed(f.head) :: call in Calls(o) ==> call in Calls(f.head)
    ensures call !in Calls(f.head) ==> !Lost(f.head, call)
  {
    CallsAreIds(f.head);
    CallsAreIdsOf(f.tail);
    if LostIn(f.tail, call) {
      LostCovered(f.tail, call);
    }
    if Lost(f.head, call) {
      LostInside(f.head, call);
    }
    forall o | o in IndexedIn(f.tail)
      ensures call in Calls(o) ==> call in CallsOf(f.tail)
    {
      IndexedInsideIn(f.tail, o);
      SubtreeHoldsIn(f.tail, o);
    }
    if f.head.role.ClassRole? {
      forall o | o in Indexed(f.head)
        ensures call in Calls(o) ==> call in Calls(f.head)
      {
        IndexedInside(f.head, o);
        SubtreeHolds(f.head, o);
      }
    }
  }

  lemma {:induction false} HeadCredited(head: Tree, owner: Tree, call: Id)
    requires Unique(head)
    ensures head.role.ClassRole? ==>
              (Credit(owner, call) in Credits(head) <==> Innermost(head, owner, call) && !Lost(head, call))
    ensures head.role.MethodRole? ==>
              (Credit(owner, call) in Credited(head, Unpruned(head, {})) <==> owner == head && call in Calls(head))
    decreases Size(head), 1
  {
    if head.role.ClassRole? {
      ClassCredited(head, owner, call);
    } else {
      UnprunedMeans(head, {}, call);
    }
  }

  /** A class and its members, at any depth: a call is credited to a symbol if
      and only if its node is the innermost indexed one that contains the call,
      and no class without a name or a body does. */
  lemma {:induction false} ClassCredited(c: Tree, owner: Tree, call: Id)
    requires Unique(c)
    ensures Credit(owner, call) in Credits(c) <==> Innermost(c, owner, call) && !Lost(c, call)
    decreases Size(c), 0
  {
    if HasBody(c) {
      var f := Members(c);
      MembersSmaller(c);
      MembersInside(c);
      MembersCredited(f, owner, call);
      LeftToClass(c, call);
      forall o | o in IndexedIn(f)
        ensures o in Subtrees(c) && Size(o) < Size(c) && (call in Calls(o) ==> Covered(f, call))
      {
        IndexedInsideIn(f, o);
      }
      if Covered(f, call) && !LostIn(f, call) {
        var o := CoveringIndexed(f, call);
        if c in Subtrees(o) {
          SubtreeHolds(o, c);
        }
      }
      if LostIn(f, call) {
        LostCovered(f, call);
      }
    }
  }

  lemma {:induction false} CoveringIndexed(f: Forest, call: Id) returns (o: Tree)
    requires Covered(f, call) && !LostIn(f, call)
    ensures o in IndexedIn(f) && call in Calls(o)
    decreases SizeOf(f)
  {
    if IsMember(f.head) && call in Calls(f.head) {
      o := f.head;
    } else {
      o := CoveringIndexed(f.tail, call);
    }
  }

  lemma InnermostOnce(c: Tree, a: Tree, b: Tree, call: Id)
    requires Innermost(c, a, call) && Innermost(c, b, call)
    ensures a == b
  {
    SubtreeHolds(a, b);
    SubtreeHolds(b, a);
  }

  /** The class has an innermost indexed node for each call not lost. */
  lemma {:induction false} InnermostExists(c: Tree, call: Id) returns (owner: Tree)
    requires Unique(c) && call in Calls(c) && !Lost(c, call)
    ensures Credit(owner, call) in Credits(c)
    decreases Size(c), 0
  {
    MembersSmaller(c);
    MembersInside(c);
    LeftToClass(c, call);
    if Covered(Members(c), call) {
      owner := InnermostExistsIn(Members(c), call);
    } else {
      owner := c;
    }
  }

  lemma {:induction false} InnermostExistsIn(f: Forest, call: Id) returns (owner: Tree)
    requires UniqueIn(f) && Covered(f, call) && !LostIn(f, call)
    ensures Credit(owner, call) in MemberCredits(f)
    decreases SizeOf(f), 1
  {
    if IsMember(f.head) && call in Calls(f.head) {
      if f.head.role.ClassRole? {
        owner := InnermostExists(f.head, call);
      } else {
        owner := f.head;
        UnprunedMeans(f.head, {}, call);
      }
    } else {
      owner := InnermostExistsIn(f.tail, call);
    }
  }

  ghost predicate CreditedOnce(c: Tree, owner: Tree, call: Id) {
    Innermost(c, owner, call) && forall other :: Credit(other, call) in Credits(c) <==> other == owner
  }

  /** A call inside a class is credited to exactly one symbol, that of the
      innermost indexed member that contains it or else of the class, if and only
      if it lies in no class without a name or a body; if it does, to none. */
  lemma CreditedToInnermost(c: Tree, call: Id)
    requires Unique(c) && call in Calls(c)
    ensures (exists owner :: CreditedOnce(c, owner, call)) <==> !Lost(c, call)
    ensures Lost(c, call) ==> forall other :: Credit(other, call) !in Credits(c)
  {
    forall other
      ensures Credit(other, call) in Credits(c) <==> Innermost(c, other, call) && !Lost(c, call)
    {
      ClassCredited(c, other, call);
    }
    if !Lost(c, call) {
      var owner := InnermostExists(c, call);
      forall other | Credit(other, call) in Credits(c)
        ensures other == owner
      {
        InnermostOnce(c, owner, other, call);
      }
      assert CreditedOnce(c, owner, call);
    }
  }

  // ----- member by member

  /** `m` is one of the statements listed. */
  predicate KidOf(f: Forest, m: Tree) {
    f.Cons? && (f.head == m || KidOf(f.tail, m))
  }

  /** `b` is the body of the named class `c`, somewhere below its node. */
  predicate BodyOf(c: Tree, b: Tree) {
    c.role == ClassRole(true, Some(b.id)) && b in Subtrees(c) && b != c
  }

  lemma {:induction false} FindsOnly(t: Tree, s: Tree)
    requires Unique(t) && s in Subtrees(t)
    ensures Find(t, s.id) == Some(s)
  {
    FindsSome(t, s);
    FoundSmaller(t, s.id);
    FoundId(t, s.id);
    SameId(t, s, Find(t, s.id).value);
  }

  lemma {:induction false} FindsSome(t: Tree, s: Tree)
    requires s in Subtrees(t)
    ensures Find(t, s.id).Some?
  {
    if t != s && t.id != s.id {
      FindsSomeIn(t.kids, s);
    }
  }

  lemma {:induction false} FindsSomeIn(f: Forest, s: Tree)
    requires s in SubtreesOf(f)
    ensures FindIn(f, s.id).Some?
  {
    if s in Subtrees(f.head) {
      FindsSome(f.head, s);
    } else {
      FindsSomeIn(f.tail, s);
    }
  }

  lemma {:induction false} FoundId(t: Tree, id: Id)
    ensures Find(t, id).Some? ==> Find(t, id).value.id == id
  {
    if t.id != id {
      FoundIdIn(t.kids, id);
    }
  }

  lemma {:induction false} FoundIdIn(f: Forest, id: Id)
    ensures FindIn(f, id).Some? ==> FindIn(f, id).value.id == id
  {
    if f.Cons? {
      FoundId(f.head, id);
      FoundIdIn(f.tail, id);
    }
  }

  lemma BodyFound(c: Tree, b: Tree)
    requires Unique(c) && BodyOf(c, b)
    ensures HasBody(c) && Members(c) == b.kids
  {
    FindsOnly(c, b);
    if b.id == c.id {
      SameId(c, b, c);
    }
  }

  lemma CreditInside(c: Tree, owner: Tree, call: Id)
    requires Unique(c) && Credit(owner, call) in Credits(c)
    ensures call in Calls(c)
  {
    ClassCredited(c, owner, call);
    IndexedInside(c, owner);
    SubtreeHolds(c, owner);
  }

  lemma {:induction false} KidHolds(f: Forest, m: Tree)
    requires KidOf(f, m)
    ensures m in SubtreesOf(f) && (UniqueIn(f) ==> Unique(m)) && Calls(m) <= CallsOf(f)
  {
    if f.head != m {
      KidHolds(f.tail, m);
    }
  }

  /** What the statement credits for a call inside it. */
  predicate MemberCredit(m: Tree, owner: Tree, call: Id) {
    match m.role
    case ClassRole(_, _) => Credit(owner, call) in Credits(m)
    case MethodRole => owner == m
    case OtherRole => false
  }

  lemma HeadMemberCredit(f: Forest, owner: Tree, call: Id)
    requires f.Cons? && UniqueIn(f)
    ensures call in Calls(f.head) ==> (Credit(owner, call) in MemberCredits(f) <==>
              MemberCredit(f.head, owner, call) || Credit(owner, call) in MemberCredits(f.tail))
    ensures call !in Calls(f.head) ==>
              (Credit(owner, call) in MemberCredits(f) <==> Credit(owner, call) in MemberCredits(f.tail))
  {
    if f.head.role.MethodRole? {
      UnprunedMeans(f.head, {}, call);
    } else if f.head.role.ClassRole? && Credit(owner, call) in Credits(f.head) {
      CreditInside(f.head, owner, call);
    }
  }

  /** No statement credits a call that lies in none of them. */
  lemma {:induction false} NoneCredited(f: Forest, owner: Tree, call: Id)
    requires UniqueIn(f) && call !in CallsOf(f)
    ensures Credit(owner, call) !in MemberCredits(f) && !Covered(f, call)
  {
    if f.Cons? {
      HeadMemberCredit(f, owner, call);
      NoneCredited(f.tail, owner, call);
    }
  }

  lemma {:induction false} KidCredits(f: Forest, m: Tree, owner: Tree, call: Id)
    requires UniqueIn(f) && KidOf(f, m) && call in Calls(m)
    ensures Credit(owner, call) in MemberCredits(f) <==> MemberCredit(m, owner, call)
    ensures Covered(f, call) <==> m.role != OtherRole
  {
    HeadMemberCredit(f, owner, call);
    CallsAreIds(f.head);
    CallsAreIdsOf(f.tail);
    if f.head == m {
      NoneCredited(f.tail, owner, call);
    } else {
      KidHolds(f.tail, m);
      KidCredits(f.tail, m, owner, call);
    }
  }

  /** Each call in a statement of the class body goes to the method the statement
      is, or wherever the class it is credits it, or else to the class. */
  lemma CreditsByMember(c: Tree, b: Tree, m: Tree, owner: Tree, call: Id)
    requires Unique(c) && BodyOf(c, b) && KidOf(b.kids, m) && call in Calls(m)
    ensures m.role == MethodRole ==> (Credit(owner, call) in Credits(c) <==> owner == m)
    ensures m.role.ClassRole? ==> (Credit(owner, call) in Credits(c) <==> Credit(owner, call) in Credits(m))
    ensures m.role == OtherRole ==> (Credit(owner, call) in Credits(c) <==> owner == c)
  {
    BodyFound(c, b);
    MembersInside(c);
    MembersSmaller(c);
    KidHolds(b.kids, m);
    KidCredits(b.kids, m, owner, call);
    LeftToClass(c, call);
  }

  /** A call outside the body's statements goes to the class; a class that has no
      name or no body gets nothing and its calls go nowhere. */
  lemma CreditsOutside(c: Tree, b: Tree, owner: Tree, call: Id)
    requires Unique(c)
    ensures BodyOf(c, b) && call in Calls(c) && call !in CallsOf(b.kids) ==>
              (Credit(owner, call) in Credits(c) <==> owner == c)
    ensures (forall body :: !BodyOf(c, body)) ==> Credits(c) == {}
  {
    if BodyOf(c, b) && call in Calls(c) && call !in CallsOf(b.kids) {
      BodyFound(c, b);
      MembersInside(c);
      MembersSmaller(c);
      NoneCredited(b.kids, owner, call);
      LeftToClass(c, call);
    }
    if HasBody(c) {
      var body := Find(c, c.role.body.value).value;
      FoundSmaller(c, c.role.body.value);
      FoundId(c, c.role.body.value);
      assert BodyOf(c, body);
    }
  }
}
