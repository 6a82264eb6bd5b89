/**
 * The service catalogue lookup (Controllers/ServiceController.cs): a
 * service type 1..25 names a fixed group of service IDs, and the reply is
 * the services whose ID is in that group.
 */
module ServiceController {
  import opened Wrappers
  import opened Sequences
  import opened Models

  /** The number of service IDs the groups cycle through. */
  const IdCount: int := 25

  /** The `switch` of GetServices: the ID group of a service type, null for any other value. */
  function ServiceGroup(services: int): (r: Option<seq<int>>)
    ensures r.Some? <==> 1 <= services <= IdCount
  {
    match services
    case 1 => Some([1, 2, 3, 4, 5, 6, 7])
    case 2 => Some([8, 9, 10, 11, 12, 13, 14])
    case 3 => Some([15, 16, 17, 18, 19, 20, 21])
    case 4 => Some([22, 23, 24, 25, 1, 2, 3])
    case 5 => Some([4, 5, 6, 7, 8, 9, 10])
    case 6 => Some([11, 12, 13, 14, 15, 16, 17])
    case 7 => Some([18, 19, 20, 21, 22, 23, 24])
    case 8 => Some([25, 1, 2, 3, 4, 5, 6])
    case 9 => Some([7, 8, 9, 10, 11, 12, 13])
    case 10 => Some([14, 15, 16, 17, 18, 19, 20])
    case 11 => Some([21, 22, 23, 24, 25, 1, 2])
    case 12 => Some([3, 4, 5, 6, 7, 8, 9])
    case 13 => Some([10, 11, 12, 13, 14, 15, 16])
    case 14 => Some([17, 18, 19, 20, 21, 22, 23])
    case 15 => Some([24, 25, 1, 2, 3, 4, 5])
    case 16 => Some([6, 7, 8, 9, 10, 11, 12])
    case 17 => Some([13, 14, 15, 16, 17, 18, 19])
    case 18 => Some([1, 2, 3, 4, 5])
    case 19 => Some([2, 3, 4, 5, 6, 7, 8])
    case 20 => Some([9, 10, 11, 12, 13, 14, 15])
    case 21 => Some([16, 17, 18, 19, 20, 21, 22])
    case 22 => Some([23, 24, 25, 1, 2, 3, 4])
    case 23 => Some([5, 6, 7, 8, 9, 10, 11])
    case 24 => Some([12, 13, 14, 15, 16, 17, 18])
    case 25 => Some([19, 20, 21, 22, 23, 24, 25])
    case _ => None
  }

  // ------------------------------------------------ the groups' structure

  /** The ID `k` places after ID 1, counting round from 25 back to 1. */
  function Wrap(k: int): (id: int)
    ensures 1 <= id <= IdCount
  {
    k % IdCount + 1
  }

  /** The next ID round the cycle. */
  function Next(id: int): int {
    if id == IdCount then 1 else id + 1
  }

  /** How many places after ID 1 group `g` starts: seven on from the previous group, group 18 aside. */
  function Start(g: int): int {
    if g == 18 then 0 else 7 * (g - 1)
  }

  /** Seven IDs per group, five in group 18. */
  function GroupSize(g: int): nat {
    if g == 18 then 5 else 7
  }

  /**
   * Group `g` is the run of seven IDs starting where group `g - 1` left
   * off, counting round from 25 back to 1; group 18 is instead the five
   * IDs 1 to 5.
   */
  lemma GroupIsRun(g: int)
    requires 1 <= g <= IdCount
    ensures var ids := ServiceGroup(g).value;
      |ids| == GroupSize(g) && forall i | 0 <= i < |ids| :: ids[i] == Wrap(Start(g) + i)
  {
    if g <= 5 {
      GroupIsRunFrom1(g);
    } else if g <= 10 {
      GroupIsRunFrom6(g);
    } else if g <= 15 {
      GroupIsRunFrom11(g);
    } else if g <= 20 {
      GroupIsRunFrom16(g);
    } else {
      GroupIsRunFrom21(g);
    }
  }

  lemma GroupIsRunFrom1(g: int)
    requires 1 <= g <= 5
    ensures var ids := ServiceGroup(g).value;
      |ids| == GroupSize(g) && forall i | 0 <= i < |ids| :: ids[i] == Wrap(Start(g) + i)
  {
    if g == 1 {
      assert ServiceGroup(g) == Some([1, 2, 3, 4, 5, 6, 7]);
    } else if g == 2 {
      assert ServiceGroup(g) == Some([8, 9, 10, 11, 12, 13, 14]);
    } else if g == 3 {
      assert ServiceGroup(g) == Some([15, 16, 17, 18, 19, 20, 21]);
    } else if g == 4 {
      assert ServiceGroup(g) == Some([22, 23, 24, 25, 1, 2, 3]);
    } else if g == 5 {
      assert ServiceGroup(g) == Some([4, 5, 6, 7, 8, 9, 10]);
    }
  }

  lemma GroupIsRunFrom6(g: int)
    requires 6 <= g <= 10
    ensures var ids := ServiceGroup(g).value;
      |ids| == GroupSize(g) && forall i | 0 <= i < |ids| :: ids[i] == Wrap(Start(g) + i)
  {
    if g == 6 {
      assert ServiceGroup(g) == Some([11, 12, 13, 14, 15, 16, 17]);
    } else if g == 7 {
      assert ServiceGroup(g) == Some([18, 19, 20, 21, 22, 23, 24]);
    } else if g == 8 {
      assert ServiceGroup(g) == Some([25, 1, 2, 3, 4, 5, 6]);
    } else if g == 9 {
      assert ServiceGroup(g) == Some([7, 8, 9, 10, 11, 12, 13]);
    } else if g == 10 {
      assert ServiceGroup(g) == Some([14, 15, 16, 17, 18, 19, 20]);
    }
  }

  lemma GroupIsRunFrom11(g: int)
    requires 11 <= g <= 15
    ensures var ids := ServiceGroup(g).value;
      |ids| == GroupSize(g) && forall i | 0 <= i < |ids| :: ids[i] == Wrap(Start(g) + i)
  {
    if g == 11 {
      assert ServiceGroup(g) == Some([21, 22, 23, 24, 25, 1, 2]);
    } else if g == 12 {
      assert ServiceGroup(g) == Some([3, 4, 5, 6, 7, 8, 9]);
    } else if g == 13 {
      assert ServiceGroup(g) == Some([10, 11, 12, 13, 14, 15, 16]);
    } else if g == 14 {
      assert ServiceGroup(g) == Some([17, 18, 19, 20, 21, 22, 23]);
    } else if g == 15 {
      assert ServiceGroup(g) == Some([24, 25, 1, 2, 3, 4, 5]);
    }
  }

  lemma GroupIsRunFrom16(g: int)
    requires 16 <= g <= 20
    ensures var ids := ServiceGroup(g).value;
      |ids| == GroupSize(g) && forall i | 0 <= i < |ids| :: ids[i] == Wrap(Start(g) + i)
  {
    if g == 16 {
      assert ServiceGroup(g) == Some([6, 7, 8, 9, 10, 11, 12]);
    } else if g == 17 {
      assert ServiceGroup(g) == Some([13, 14, 15, 16, 17, 18, 19]);
    } else if g == 18 {
      assert ServiceGroup(g) == Some([1, 2, 3, 4, 5]);
    } else if g == 19 {
      assert ServiceGroup(g) == Some([2, 3, 4, 5, 6, 7, 8]);
    } else if g == 20 {
      assert ServiceGroup(g) == Some([9, 10, 11, 12, 13, 14, 15]);
    }
  }

  lemma GroupIsRunFrom21(g: int)
    requires 21 <= g <= 25
    ensures var ids := ServiceGroup(g).value;
      |ids| == GroupSize(g) && forall i | 0 <= i < |ids| :: ids[i] == Wrap(Start(g) + i)
  {
    if g == 21 {
      assert ServiceGroup(g) == Some([16, 17, 18, 19, 20, 21, 22]);
    } else if g == 22 {
      assert ServiceGroup(g) == Some([23, 24, 25, 1, 2, 3, 4]);
    } else if g == 23 {
      assert ServiceGroup(g) == Some([5, 6, 7, 8, 9, 10, 11]);
    } else if g == 24 {
      assert ServiceGroup(g) == Some([12, 13, 14, 15, 16, 17, 18]);
    } else if g == 25 {
      assert ServiceGroup(g) == Some([19, 20, 21, 22, 23, 24, 25]);
    }
  }

  /** Within a run of at most 25, consecutive entries are consecutive IDs and none repeats. */
  lemma RunShape(ids: seq<int>, offset: int)
    requires |ids| <= IdCount
    requires forall i | 0 <= i < |ids| :: ids[i] == Wrap(offset + i)
    ensures forall i | 0 <= i < |ids| - 1 :: ids[i + 1] == Next(ids[i])
    ensures forall i, j | 0 <= i < j < |ids| :: ids[i] != ids[j]
  {
    forall i | 0 <= i < |ids| - 1 ensures ids[i + 1] == Next(ids[i]) {
      WrapStep(offset + i);
    }
    forall i, j | 0 <= i < j < |ids| ensures ids[i] != ids[j] {
      WrapDistinct(offset + i, offset + j);
    }
  }

  lemma WrapStep(k: int)
    ensures Wrap(k + 1) == Next(Wrap(k))
  {
    var q := k / IdCount;
    if k % IdCount == IdCount - 1 {
      assert k + 1 == (q + 1) * IdCount;
    } else {
      assert k + 1 == q * IdCount + (k % IdCount + 1);
    }
  }

  lemma WrapDistinct(a: int, b: int)
    requires a < b < a + IdCount
    ensures Wrap(a) != Wrap(b)
  {
  }

  /**
   * The properties of the table itself: every ID of every group lies in
   * 1..25; every group has seven IDs except group 18, which has five; and
   * each group is a run of consecutive IDs wrapping from 25 to 1, without
   * repeats.
   */
  lemma GroupShape(g: int)
    requires 1 <= g <= IdCount
    ensures var ids := ServiceGroup(g).value;
      && (forall i | 0 <= i < |ids| :: 1 <= ids[i] <= IdCount)
      && |ids| == (if g == 18 then 5 else 7)
      && (forall i | 0 <= i < |ids| - 1 :: ids[i + 1] == Next(ids[i]))
      && (forall i, j | 0 <= i < j < |ids| :: ids[i] != ids[j])
  {
    GroupIsRun(g);
    RunShape(ServiceGroup(g).value, Start(g));
  }

  /** Every ID 1..25 is in some group. */
  lemma EveryIdInSomeGroup(id: int)
    requires 1 <= id <= IdCount
    ensures exists g | 1 <= g <= IdCount :: id in ServiceGroup(g).value
  {
    var g := if id <= 21 then (id - 1) / 7 + 1 else 4;
    GroupIsRun(g);
    var i := if id <= 21 then (id - 1) % 7 else id - 22;
    assert ServiceGroup(g).value[i] == id;
  }

  // -------------------------------------------------------------- the query

  function InGroup(ids: seq<int>): Service -> bool {
    (s: Service) => s.id in ids
  }

  /**
   * GET {services}: BadRequest for a type outside 1..25; otherwise the
   * services whose ID is in the type's group, NotFound when there are
   * none.
   */
  function GetServices(table: seq<Service>, services: int): (r: Reply<seq<Service>>)
    ensures r.Ok? || r == BadRequest(InvalidServiceType) || r == NotFound(NoRows)
    ensures r == BadRequest(InvalidServiceType) <==> !(1 <= services <= IdCount)
    ensures r == NotFound(NoRows) <==>
      1 <= services <= IdCount && forall i | 0 <= i < |table| :: table[i].id !in ServiceGroup(services).value
    ensures r.Ok? ==>
      forall s :: multiset(r.value)[s] ==
        if s.id in ServiceGroup(services).value then multiset(table)[s] else 0
  {
    match ServiceGroup(services)
    case None => BadRequest(InvalidServiceType)
    case Some(ids) =>
      FilterEmpty(table, InGroup(ids));
      var results := Filter(table, InGroup(ids));
      if results == [] then NotFound(NoRows) else Ok(results)
  }
}
