/** Who has to agree (rsm/membership.py and rsm/quorum.py): majorities, joint majorities and rules about sizes. */
module Membership {
  import opened Basics
  import opened Keeping

  /** Twice this exceeds the size, and twice one less does not. */
  function Need(size: nat): nat { size / 2 + 1 }

  /** A set of votes that holds a majority of a membership. */
  predicate Majority(members: seq<Name>, votes: set<Name>) {
    |votes * Names(members)| >= Need(|members|)
  }

  /** Any two sets that each hold a majority of one membership share one of its members. */
  lemma MajoritiesShare(members: seq<Name>, a: set<Name>, b: set<Name>) returns (v: Name)
    requires Distinct(members) && Majority(members, a) && Majority(members, b)
    ensures v in a && v in b && v in members
  {
    v := MajoritiesMeet(members, a * Names(members), b * Names(members));
  }

  /* ---- configurations ---- */

  /** The members, and during a change the members before it. */
  datatype Configuration = Configuration(members: seq<Name>, former: seq<Name>) {
    predicate Joint() { former != [] }

    predicate Sound() { members != [] && Distinct(members) && Distinct(former) }

    /** Enough to decide anything: a majority, and during a change a majority of each membership. */
    predicate Quorum(votes: set<Name>) {
      Majority(members, votes) && (Joint() ==> Majority(former, votes))
    }
  }

  function Without(members: seq<Name>, name: Name): (rest: seq<Name>)
    ensures forall m :: m in rest <==> m in members && m != name
  {
    if members == [] then []
    else if members[0] == name then Without(members[1..], name)
    else [members[0]] + Without(members[1..], name)
  }

  lemma {:induction false} WithoutOne(members: seq<Name>, name: Name)
    requires Distinct(members)
    ensures Distinct(Without(members, name))
    ensures |Without(members, name)| == if name in members then |members| - 1 else |members|
  {
    if members != [] {
      var rest := Without(members[1..], name);
      assert members == [members[0]] + members[1..];
      WithoutOne(members[1..], name);
      assert forall i :: 0 <= i < |rest| ==> rest[i] in rest;
      assert members[0] !in members[1..];
    }
  }

  function WithMember(c: Configuration, name: Name): (r: Result<Configuration>) {
    if name in c.members then Err(ConfigError) else Ok(Configuration(c.members + [name], c.members))
  }

  function WithoutMember(c: Configuration, name: Name): (r: Result<Configuration>) {
    if name !in c.members then Err(ConfigError)
    else
      var remaining := Without(c.members, name);
      if remaining == [] then Err(ConfigError) else Ok(Configuration(remaining, c.members))
  }

  /** The steady configuration a change ends in. */
  function Settled(c: Configuration): Configuration { Configuration(c.members, []) }

  /** A majority is more than half of the members, whoever else votes. */
  lemma MajorityIsMoreThanHalf(members: seq<Name>, votes: set<Name>)
    ensures Majority(members, votes) <==> 2 * |votes * Names(members)| > |members|
  {
  }

  lemma {:induction false} WithoutAt(members: seq<Name>, name: Name, i: nat)
    requires Distinct(members) && i < |members| && members[i] == name
    ensures Without(members, name) == members[..i] + members[i + 1..]
    decreases i
  {
    assert members == [members[0]] + members[1..];
    if i == 0 {
      assert name !in members[1..];
      WithoutNone(members[1..], name);
    } else {
      WithoutAt(members[1..], name, i - 1);
    }
  }

  lemma {:induction false} WithoutNone(members: seq<Name>, name: Name)
    requires name !in members
    ensures Without(members, name) == members
  {
    if members != [] { WithoutNone(members[1..], name); }
  }

  /**
  A change is allowed exactly when it changes something and leaves somebody; it leads to a sound joint configuration
  that remembers the membership it came from, with one name more at its end, or one fewer and the rest in order.
  */
  lemma ChangesAreSound(c: Configuration, name: Name)
    requires c.Sound()
    ensures WithMember(c, name).Ok? <==> name !in c.members
    ensures WithMember(c, name).Ok? ==>
              var j := WithMember(c, name).value;
              && j.Sound() && j.Joint() && j.former == c.members
              && j.members == c.members + [name] && Names(j.members) == Names(c.members) + {name}
    ensures WithoutMember(c, name).Ok? <==> name in c.members && |c.members| > 1
    ensures WithoutMember(c, name).Ok? ==>
              var j := WithoutMember(c, name).value;
              && j.Sound() && j.Joint() && j.former == c.members
              && Names(j.members) == Names(c.members) - {name}
              && forall i :: 0 <= i < |c.members| && c.members[i] == name ==> j.members == c.members[..i] + c.members[i + 1..]
    ensures WithMember(c, name).Err? ==> WithMember(c, name).error == ConfigError
    ensures WithoutMember(c, name).Err? ==> WithoutMember(c, name).error == ConfigError
  {
    WithoutOne(c.members, name);
    assert forall m :: m in c.members + [name] <==> m in c.members || m == name;
    forall i | 0 <= i < |c.members| && c.members[i] == name
      ensures Without(c.members, name) == c.members[..i] + c.members[i + 1..]
    {
      WithoutAt(c.members, name, i);
    }
  }

  /** One allowed change leads from the one configuration to the other. */
  ghost predicate LeadsTo(c: Configuration, j: Configuration) {
    exists name :: WithMember(c, name) == Ok(j) || WithoutMember(c, name) == Ok(j)
  }

  /** During a change exactly those votes decide that are a majority of the new members and of the old ones. */
  lemma ChangeDecides(c: Configuration, j: Configuration, votes: set<Name>)
    requires c.Sound() && LeadsTo(c, j)
    ensures j.Sound() && j.former == c.members
    ensures j.Quorum(votes) <==> 2 * |votes * Names(j.members)| > |j.members| && 2 * |votes * Names(c.members)| > |c.members|
    ensures Settled(j).Sound() && (Settled(j).Quorum(votes) <==> 2 * |votes * Names(j.members)| > |j.members|)
  {
    var name :| WithMember(c, name) == Ok(j) || WithoutMember(c, name) == Ok(j);
    ChangesAreSound(c, name);
  }

  /** Joint consensus: any two deciding sets share a member of the new membership, and one of the old during a change. */
  lemma QuorumsMeet(c: Configuration, a: set<Name>, b: set<Name>) returns (v: Name, u: Name)
    requires c.Sound() && c.Quorum(a) && c.Quorum(b)
    ensures v in a && v in b && v in c.members
    ensures c.Joint() ==> u in a && u in b && u in c.former
  {
    v := MajoritiesShare(c.members, a, b);
    u := v;
    if c.Joint() { u := MajoritiesShare(c.former, a, b); }
  }

  /**
  During a change nothing is decided behind the back of a majority of either membership alone: whatever decides in
  the joint configuration shares a vote with every majority of the members before the change and with every majority
  of the members after it.
  */
  lemma JointMeetsBothSides(c: Configuration, j: Configuration, a: set<Name>, b: set<Name>) returns (v: Name)
    requires c.Sound() && LeadsTo(c, j) && j.Quorum(a)
    requires 2 * |b * Names(c.members)| > |c.members| || 2 * |b * Names(j.members)| > |j.members|
    ensures v in a && v in b
  {
    ChangeDecides(c, j, a);
    if 2 * |b * Names(c.members)| > |c.members| {
      v := MajoritiesShare(c.members, a, b);
    } else {
      v := MajoritiesShare(j.members, a, b);
    }
  }

  /** From steady through joint to settled, whatever decides at one stage shares a vote with whatever decides at the next. */
  lemma StagesMeet(c: Configuration, j: Configuration, a: set<Name>, b: set<Name>) returns (v: Name)
    requires c.Sound() && !c.Joint() && LeadsTo(c, j) && j.Quorum(a) && (c.Quorum(b) || Settled(j).Quorum(b))
    ensures v in a && v in b
  {
    v := JointMeetsBothSides(c, j, a, b);
  }

  /* ---- listing the sets of a size ---- */

  /** The sets of `need` names that hold `chosen` and otherwise names from `position` on, in the order they are built. */
  function Chosen(members: seq<Name>, need: nat, position: nat, chosen: set<Name>): seq<set<Name>>
    requires position <= |members|
    decreases |members| - position
  {
    if |chosen| == need then [chosen]
    else if position >= |members| then []
    else Chosen(members, need, position + 1, chosen + {members[position]}) + Chosen(members, need, position + 1, chosen)
  }

  lemma Regroup<T>(a: seq<T>, b: seq<T>, c: seq<T>)
    ensures (a + b) + c == a + (b + c)
  {
  }

  method Build(members: seq<Name>, need: nat, position: nat, chosen: set<Name>, so: seq<set<Name>>)
    returns (out: seq<set<Name>>)
    requires position <= |members|
    ensures out == so + Chosen(members, need, position, chosen)
    decreases |members| - position
  {
    if |chosen| == need { return so + [chosen]; }
    if position >= |members| { return so; }
    var taking := Build(members, need, position + 1, chosen + {members[position]}, so);
    out := Build(members, need, position + 1, chosen, taking);
    Regroup(so, Chosen(members, need, position + 1, chosen + {members[position]}), Chosen(members, need, position + 1, chosen));
  }

  /** A set that extends `chosen` by names from `position` on, up to the size needed. */
  ghost predicate Extends(members: seq<Name>, need: nat, position: nat, chosen: set<Name>, s: set<Name>)
    requires position <= |members|
  {
    chosen <= s <= chosen + Names(members[position..]) && |s| == need
  }

  /** The recursion lists exactly the sets it should. */
  lemma {:induction false} ListsExactly(members: seq<Name>, need: nat, position: nat, chosen: set<Name>, s: set<Name>)
    requires Distinct(members) && position <= |members|
    requires chosen !! Names(members[position..])
    ensures s in Chosen(members, need, position, chosen) <==> Extends(members, need, position, chosen, s)
    decreases |members| - position
  {
    hide Extends;
    if |chosen| == need {
      FullyChosen(members, need, position, chosen, s);
    } else if position < |members| {
      var one := members[position];
      NamesFrom(members, position);
      ListsExactly(members, need, position + 1, chosen + {one}, s);
      ListsExactly(members, need, position + 1, chosen, s);
      ExtendsBy(members, need, position, chosen, s);
    } else {
      FullyChosen(members, need, position, chosen, s);
    }
  }

  lemma NamesFrom(members: seq<Name>, position: nat)
    requires Distinct(members) && position < |members|
    ensures Names(members[position..]) == {members[position]} + Names(members[position + 1..])
    ensures members[position] !in Names(members[position + 1..])
  {
    assert members[position..] == [members[position]] + members[position + 1..];
  }

  lemma FullyChosen(members: seq<Name>, need: nat, position: nat, chosen: set<Name>, s: set<Name>)
    requires position <= |members| && (|chosen| == need || position == |members|)
    ensures Extends(members, need, position, chosen, s) <==> s == chosen && |s| == need
  {
    if Extends(members, need, position, chosen, s) {
      if |chosen| == need { SameSize(chosen, s); }
      if position == |members| { assert Names(members[position..]) == {}; }
    }
  }

  lemma ExtendsBy(members: seq<Name>, need: nat, position: nat, chosen: set<Name>, s: set<Name>)
    requires Distinct(members) && position < |members| && chosen !! Names(members[position..])
    ensures Extends(members, need, position, chosen, s) <==>
            Extends(members, need, position + 1, chosen + {members[position]}, s) || Extends(members, need, position + 1, chosen, s)
  {
    NamesFrom(members, position);
    var one, rest := members[position], Names(members[position + 1..]);
    assert one in s ==> (chosen <= s <= chosen + ({one} + rest) <==> chosen + {one} <= s <= (chosen + {one}) + rest);
    assert one !in s ==> (chosen <= s <= chosen + ({one} + rest) <==> chosen <= s <= chosen + rest);
  }

  lemma SameSize(a: set<Name>, b: set<Name>)
    requires a <= b && |a| == |b|
    ensures a == b
  {
    assert b == a + (b - a);
    assert |b| == |a| + |b - a|;
  }

  ghost predicate NoRepeats(all: seq<set<Name>>) {
    forall i, j :: 0 <= i < j < |all| ==> all[i] != all[j]
  }

  /** And it lists none of them twice. */
  lemma {:induction false} ListsOnce(members: seq<Name>, need: nat, position: nat, chosen: set<Name>)
    requires Distinct(members) && position <= |members| && chosen !! Names(members[position..])
    ensures NoRepeats(Chosen(members, need, position, chosen))
    decreases |members| - position
  {
    hide NoRepeats;
    if |chosen| != need && position < |members| {
      var one := members[position];
      NamesFrom(members, position);
      ListsOnce(members, need, position + 1, chosen + {one});
      ListsOnce(members, need, position + 1, chosen);
      var with_, without := Chosen(members, need, position + 1, chosen + {one}), Chosen(members, need, position + 1, chosen);
      forall s ensures (s in with_ ==> one in s) && (s in without ==> one !in s) {
        TakesOrLeaves(members, need, position, chosen, s);
      }
      JoinsOnce(with_, without, one);
      assert Chosen(members, need, position, chosen) == with_ + without;
    } else {
      ShortOnce(Chosen(members, need, position, chosen));
    }
  }

  lemma ShortOnce(all: seq<set<Name>>)
    requires |all| <= 1
    ensures NoRepeats(all)
  {
  }

  lemma JoinsOnce(a: seq<set<Name>>, b: seq<set<Name>>, one: Name)
    requires NoRepeats(a) && NoRepeats(b)
    requires (forall s :: s in a ==> one in s) && (forall s :: s in b ==> one !in s)
    ensures NoRepeats(a + b)
  {
    assert forall i :: 0 <= i < |a| ==> one in a[i];
    assert forall i :: 0 <= i < |b| ==> one !in b[i];
  }

  lemma TakesOrLeaves(members: seq<Name>, need: nat, position: nat, chosen: set<Name>, s: set<Name>)
    requires Distinct(members) && position < |members| && chosen !! Names(members[position..])
    ensures s in Chosen(members, need, position + 1, chosen + {members[position]}) ==> members[position] in s
    ensures s in Chosen(members, need, position + 1, chosen) ==> members[position] !in s
  {
    NamesFrom(members, position);
    ListsExactly(members, need, position + 1, chosen + {members[position]}, s);
    ListsExactly(members, need, position + 1, chosen, s);
  }

  /** Exactly the subsets with the least number of nodes that decides, none of them twice. */
  method Majorities(members: seq<Name>) returns (out: seq<set<Name>>)
    requires Distinct(members)
    ensures forall s :: s in out <==> s <= Names(members) && |s| == Need(|members|)
    ensures NoRepeats(out)
  {
    out := Build(members, Need(|members|), 0, {}, []);
    AllOfSize(members, Need(|members|));
    ListsOnce(members, Need(|members|), 0, {});
    assert out == Chosen(members, Need(|members|), 0, {});
  }

  lemma AllOfSize(members: seq<Name>, need: nat)
    requires Distinct(members)
    ensures forall s :: s in Chosen(members, need, 0, {}) <==> s <= Names(members) && |s| == need
  {
    assert members[0..] == members;
    forall s ensures s in Chosen(members, need, 0, {}) <==> s <= Names(members) && |s| == need {
      ListsExactly(members, need, 0, {}, s);
    }
  }

  /** The sets listed are exactly the majorities that stop being one when any member leaves. */
  lemma ListedAreMinimal(members: seq<Name>, s: set<Name>)
    requires Distinct(members) && s <= Names(members)
    ensures |s| == Need(|members|) <==> Majority(members, s) && forall v :: v in s ==> !Majority(members, s - {v})
  {
    assert s * Names(members) == s;
    assert forall v :: v in s ==> (s - {v}) * Names(members) == s - {v};
    if |s| > Need(|members|) {
      var v :| v in s;
      assert |s - {v}| == |s| - 1;
    }
  }

  /* ---- disjoint majorities ---- */

  /** Exactly the disjoint pairs of a listed majority of the one side and a listed majority of the other. */
  method DisjointMajorities(before: seq<Name>, after: seq<Name>) returns (out: seq<(set<Name>, set<Name>)>)
    requires Distinct(before) && Distinct(after)
    ensures forall l, r :: (l, r) in out <==>
              l <= Names(before) && |l| == Need(|before|) && r <= Names(after) && |r| == Need(|after|) && l !! r
    ensures out != [] <==> CanSplit(Names(before), Need(|before|), Names(after), Need(|after|))
  {
    out := [];
    var lefts := Majorities(before);
    var rights := Majorities(after);
    for i := 0 to |lefts|
      invariant forall l, r :: (l, r) in out <==> l in lefts[..i] && r in rights && l !! r
    {
      for j := 0 to |rights|
        invariant forall l, r :: (l, r) in out <==>
                    (l in lefts[..i] && r in rights && l !! r) || (l == lefts[i] && r in rights[..j] && l !! r)
      {
        if lefts[i] !! rights[j] { out := out + [(lefts[i], rights[j])]; }
      }
    }
    SplitIffRoom(Names(before), Need(|before|), Names(after), Need(|after|));
    if CanSplit(Names(before), Need(|before|), Names(after), Need(|after|)) {
      var l, r :| l <= Names(before) && |l| == Need(|before|) && r <= Names(after) && |r| == Need(|after|) && l !! r;
      assert (l, r) in out;
    }
    if out != [] { assert (out[0].0, out[0].1) in out; }
  }

  /** Room for two sets of given sizes, one inside each of two sets, that share nothing. */
  predicate CanSplit(a: set<Name>, m: nat, b: set<Name>, n: nat) {
    m <= |a| && n <= |b| && Max(0, m - |a - b|) + Max(0, n - |b - a|) <= |a * b|
  }

  ghost predicate Split(a: set<Name>, m: nat, b: set<Name>, n: nat) {
    exists l, r :: l <= a && |l| == m && r <= b && |r| == n && l !! r
  }

  /** There are two such sets exactly when what each cannot find outside the overlap fits inside it together. */
  lemma SplitIffRoom(a: set<Name>, m: nat, b: set<Name>, n: nat)
    ensures Split(a, m, b, n) <==> CanSplit(a, m, b, n)
  {
    if Split(a, m, b, n) {
      var l, r :| l <= a && |l| == m && r <= b && |r| == n && l !! r;
      NeedsRoom(a, b, l, r);
    }
    if CanSplit(a, m, b, n) {
      var l, r := FindsRoom(a, m, b, n);
    }
  }

  lemma NeedsRoom(a: set<Name>, b: set<Name>, l: set<Name>, r: set<Name>)
    requires l <= a && r <= b && l !! r
    ensures CanSplit(a, |l|, b, |r|)
  {
    SubsetSize(l, a);
    SubsetSize(r, b);
    var l0, l1, r0, r1 := l - b, l * b, r - a, r * a;
    SplitSize(l, b);
    SplitSize(r, a);
    SubsetSize(l0, a - b);
    SubsetSize(r0, b - a);
    SubsetSize(l1 + r1, a * b);
    assert l1 !! r1;
    assert |l1 + r1| == |l1| + |r1|;
  }

  lemma SplitSize(s: set<Name>, t: set<Name>)
    ensures |s| == |s - t| + |s * t|
  {
    assert s == (s - t) + s * t;
  }

  lemma {:induction false} Pick(s: set<Name>, k: nat) returns (t: set<Name>)
    requires k <= |s|
    ensures t <= s && |t| == k
  {
    if k == 0 {
      t := {};
    } else {
      var v :| v in s;
      var rest := Pick(s - {v}, k - 1);
      t := rest + {v};
    }
  }

  lemma FindsRoom(a: set<Name>, m: nat, b: set<Name>, n: nat) returns (l: set<Name>, r: set<Name>)
    requires CanSplit(a, m, b, n)
    ensures l <= a && |l| == m && r <= b && |r| == n && l !! r
  {
    var both := a * b;
    var out, out' := Min(m, |a - b|), Min(n, |b - a|);
    var l0 := Pick(a - b, out);
    var r0 := Pick(b - a, out');
    var l1 := Pick(both, m - out);
    assert |both - l1| == |both| - |l1| by { assert both == (both - l1) + l1; }
    var r1 := Pick(both - l1, n - out');
    l, r := l0 + l1, r0 + r1;
    assert |l| == |l0| + |l1| && |r| == |r0| + |r1|;
  }

  /* ---- changes ---- */

  /** Adding one node never leaves two majorities apart, and neither does removing one. */
  lemma OneChangeIsSafe(c: Configuration, name: Name)
    requires c.Sound()
    ensures var m := c.members;
            && (WithMember(c, name).Ok? ==>
                  var j := WithMember(c, name).value.members;
                  !Split(Names(m), Need(|m|), Names(j), Need(|j|)))
            && (WithoutMember(c, name).Ok? ==>
                  var j := WithoutMember(c, name).value.members;
                  !Split(Names(m), Need(|m|), Names(j), Need(|j|)))
  {
    ChangesAreSound(c, name);
    NamesSize(c.members);
    if WithMember(c, name).Ok? {
      var j := WithMember(c, name).value.members;
      Grown(Names(c.members), |c.members|, Names(j), |j|, name);
    }
    if WithoutMember(c, name).Ok? {
      var j := WithoutMember(c, name).value.members;
      WithoutOne(c.members, name);
      NamesSize(j);
      Grown(Names(j), |j|, Names(c.members), |c.members|, name);
      SplitsBothWays(Names(j), Need(|j|), Names(c.members), Need(|c.members|));
    }
  }

  lemma SplitsBothWays(a: set<Name>, m: nat, b: set<Name>, n: nat)
    ensures Split(a, m, b, n) ==> Split(b, n, a, m)
    ensures Split(b, n, a, m) ==> Split(a, m, b, n)
  {
  }

  lemma Grown(a: set<Name>, m: nat, b: set<Name>, n: nat, name: Name)
    requires m == |a| && n == m + 1 && name !in a && b == a + {name}
    ensures !Split(a, Need(m), b, Need(n))
  {
    SplitIffRoom(a, Need(m), b, Need(n));
    assert a - b == {} && b - a == {name} && a * b == a;
  }

  /** Two different removals in flight at once leave two majorities apart exactly when the cluster had an even size. */
  lemma TwoRemovals(members: seq<Name>, one: Name, other: Name)
    requires Distinct(members) && one in members && other in members && one != other
    ensures var left, right := Without(members, one), Without(members, other);
            Split(Names(left), Need(|left|), Names(right), Need(|right|)) <==> |members| % 2 == 0
  {
    var left, right := Without(members, one), Without(members, other);
    WithoutOne(members, one);
    WithoutOne(members, other);
    NamesSize(members);
    NamesSize(left);
    NamesSize(right);
    Overlap(Names(members), one, other);
    var all := Names(members);
    assert Names(left) == all - {one} && Names(right) == all - {other};
    SplitIffRoom(all - {one}, Need(|left|), all - {other}, Need(|right|));
    RemovalRoom(all - {one}, all - {other}, |members|);
  }

  lemma RemovalRoom(a: set<Name>, b: set<Name>, n: nat)
    requires n >= 2 && |a - b| == |b - a| == 1 && |a * b| == n - 2 && |a| == |b| == n - 1
    ensures CanSplit(a, Need(n - 1), b, Need(n - 1)) <==> n % 2 == 0
  {
  }

  lemma Overlap(all: set<Name>, one: Name, other: Name)
    requires one in all && other in all && one != other
    ensures var a, b := all - {one}, all - {other}; |a - b| == |b - a| == 1 && |a * b| == |all| - 2 && |a| == |b| == |all| - 1
  {
    var a, b := all - {one}, all - {other};
    assert a - b == {other} && b - a == {one} && a * b == all - {one, other};
    assert |{one, other}| == 2;
    SubsetSize({one, other}, all);
    assert all == (all - {one, other}) + {one, other};
  }

  /* ---- quorum rules ---- */

  /** The two quorum sizes of a rule and the number of nodes it counts among. */
  datatype Rule = Rule(size: nat, election: nat, commit: nat) {
    predicate Sound() { size >= 1 && 1 <= election <= size && 1 <= commit <= size }

    predicate Intersects() { election + commit > size }
  }

  function Numbered(size: nat): (members: seq<Name>)
    ensures Distinct(members) && |members| == size
  {
    seq(size, i requires 0 <= i < size => Name(i))
  }

  lemma SizesDecide(rule: Rule, l: set<Name>, c: set<Name>)
    requires l <= Names(Numbered(rule.size)) && |l| == rule.election
    requires c <= Names(Numbered(rule.size)) && |c| == rule.commit && l !! c
    ensures !rule.Intersects()
  {
    NamesSize(Numbered(rule.size));
    SubsetSize(l + c, Names(Numbered(rule.size)));
  }

  lemma SizesAllow(rule: Rule)
    requires rule.Sound() && !rule.Intersects()
    ensures var members := Numbered(rule.size);
            exists l, c :: l in Chosen(members, rule.election, 0, {}) && c in Chosen(members, rule.commit, 0, {}) && l !! c
  {
    var members := Numbered(rule.size);
    var all := Names(members);
    NamesSize(members);
    var l := Pick(all, rule.election);
    SplitSize(all, l);
    assert all * l == l;
    var c := Pick(all - l, rule.commit);
    AllOfSize(members, rule.election);
    AllOfSize(members, rule.commit);
    assert l in Chosen(members, rule.election, 0, {}) && c in Chosen(members, rule.commit, 0, {});
  }

  /** A disjoint pair of quorums of the two kinds, found exactly when their sizes together fit the cluster. */
  method Disjoint(rule: Rule) returns (r: Option<(set<Name>, set<Name>)>)
    requires rule.Sound()
    ensures r.Some? ==> var (l, c) := r.value;
                        l <= Names(Numbered(rule.size)) && |l| == rule.election
                        && c <= Names(Numbered(rule.size)) && |c| == rule.commit && l !! c
    ensures r.None? <==> rule.Intersects()
  {
    hide Chosen;
    var members := Numbered(rule.size);
    var lefts := Build(members, rule.election, 0, {}, []);
    var rights := Build(members, rule.commit, 0, {}, []);
    AllOfSize(members, rule.election);
    AllOfSize(members, rule.commit);
    assert lefts == Chosen(members, rule.election, 0, {}) && rights == Chosen(members, rule.commit, 0, {});
    if !rule.Intersects() { SizesAllow(rule); }
    for i := 0 to |lefts|
      invariant forall k, c :: 0 <= k < i && c in rights ==> !(lefts[k] !! c)
    {
      for j := 0 to |rights|
        invariant forall k :: 0 <= k < j ==> !(lefts[i] !! rights[k])
      {
        if lefts[i] !! rights[j] {
          assert lefts[i] in lefts && rights[j] in rights;
          SizesDecide(rule, lefts[i], rights[j]);
          return Some((lefts[i], rights[j]));
        }
      }
    }
    assert forall l, c :: l in lefts && c in rights ==> !(l !! c);
    r := None;
  }

  /** A majority for both always meets, and no smaller equal pair of quorums does. */
  lemma MajorityIsTheLeast(size: nat, k: nat)
    requires 1 <= k <= size
    ensures Rule(size, k, k).Intersects() <==> k >= Need(size)
  {
  }
}
