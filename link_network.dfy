/**
 * A room's link network: every link with the energy level it should keep,
 * the links holding too little or too much, and the network's running
 * totals of energy, capacity and the bounds the levels allow.
 */
module Links {
  import opened Common

  /** A link structure as the network sees it. */
  datatype Link = Link(id: string, energy: real, energyCapacity: real)

  /** A game link holds between nothing and its capacity. */
  predicate WellFormed(link: Link)
  {
    0.0 <= link.energy <= link.energyCapacity
  }

  /** An entry of `underfullLinks` or `overfullLinks`: a link and how far it is from its level. */
  datatype Deviation = Deviation(link: Link, delta: real)

  /** Where a link with a desired level ends up. */
  datatype Placement = Underfull(delta: real) | Overfull(delta: real) | Balanced

  /** Compares a link's energy with its desired level: the deviation is always positive. */
  function Place(link: Link, level: real): (p: Placement)
    ensures p.Underfull? <==> link.energy < level
    ensures p.Overfull? <==> link.energy > level
    ensures p.Underfull? ==> p.delta == level - link.energy && p.delta > 0.0
    ensures p.Overfull? ==> p.delta == link.energy - level && p.delta > 0.0
  {
    if link.energy < level then Underfull(level - link.energy)
    else if link.energy > level then Overfull(link.energy - level)
    else Balanced
  }

  function SumEnergy(links: seq<Link>): real
  {
    if links == [] then 0.0 else SumEnergy(links[..|links| - 1]) + links[|links| - 1].energy
  }

  function SumCapacity(links: seq<Link>): real
  {
    if links == [] then 0.0 else SumCapacity(links[..|links| - 1]) + links[|links| - 1].energyCapacity
  }

  /** All the fields of a network, as one value. */
  datatype NetState = NetState(
    links: seq<Link>,
    neutralLinks: seq<Link>,
    underfullLinks: seq<Deviation>,
    overfullLinks: seq<Deviation>,
    energyCapacity: real,
    energy: real,
    minEnergy: real,
    maxEnergy: real)

  const EmptyNet := NetState([], [], [], [], 0.0, 0.0, 0.0, 0.0)

  /**
   * `addLink(link, level)`: the link is appended and its energy and capacity
   * counted; a numeric level raises both bounds by the level and files the
   * link as under- or overfull, no level files it as neutral and raises only
   * the upper bound by its capacity.
   */
  function Add(s: NetState, link: Link, level: Option<real>): (r: NetState)
    ensures r.links == s.links + [link]
    ensures r.energy == s.energy + link.energy && r.energyCapacity == s.energyCapacity + link.energyCapacity
    ensures level.Some? ==> r.minEnergy == s.minEnergy + level.value && r.maxEnergy == s.maxEnergy + level.value
    ensures level.Some? ==> r.neutralLinks == s.neutralLinks
    ensures level.Some? && link.energy < level.value ==>
              r.underfullLinks == s.underfullLinks + [Deviation(link, level.value - link.energy)] &&
              r.overfullLinks == s.overfullLinks
    ensures level.Some? && link.energy > level.value ==>
              r.overfullLinks == s.overfullLinks + [Deviation(link, link.energy - level.value)] &&
              r.underfullLinks == s.underfullLinks
    ensures level.Some? && link.energy == level.value ==>
              r.underfullLinks == s.underfullLinks && r.overfullLinks == s.overfullLinks
    ensures level.None? ==>
              r.neutralLinks == s.neutralLinks + [link] && r.minEnergy == s.minEnergy &&
              r.maxEnergy == s.maxEnergy + link.energyCapacity &&
              r.underfullLinks == s.underfullLinks && r.overfullLinks == s.overfullLinks
  {
    var counted := s.(links := s.links + [link],
                      energyCapacity := s.energyCapacity + link.energyCapacity,
                      energy := s.energy + link.energy);
    match level
    case Some(d) =>
      var bounded := counted.(minEnergy := counted.minEnergy + d, maxEnergy := counted.maxEnergy + d);
      (match Place(link, d)
       case Underfull(delta) => bounded.(underfullLinks := bounded.underfullLinks + [Deviation(link, delta)])
       case Overfull(delta) => bounded.(overfullLinks := bounded.overfullLinks + [Deviation(link, delta)])
       case Balanced => bounded)
    case None =>
      counted.(neutralLinks := counted.neutralLinks + [link], maxEnergy := counted.maxEnergy + link.energyCapacity)
  }

  /**
   * What every network built by `addLink` keeps: the totals are the sums over
   * its links, the bounds are ordered, and every recorded deviation is
   * positive.
   */
  predicate Consistent(s: NetState)
  {
    s.energy == SumEnergy(s.links) && s.energyCapacity == SumCapacity(s.links) &&
    s.minEnergy <= s.maxEnergy &&
    (forall i :: 0 <= i < |s.underfullLinks| ==> s.underfullLinks[i].delta > 0.0) &&
    (forall i :: 0 <= i < |s.overfullLinks| ==> s.overfullLinks[i].delta > 0.0)
  }

  /** Adding a link keeps the network consistent, as long as a neutral link has a non-negative capacity. */
  lemma AddConsistent(s: NetState, link: Link, level: Option<real>)
    requires Consistent(s)
    requires level.None? ==> link.energyCapacity >= 0.0
    ensures Consistent(Add(s, link, level))
  {
    var r := Add(s, link, level);
    assert r.links[..|r.links| - 1] == s.links;
  }

  /** The level each kind of link keeps. */
  datatype Role = InOut | Out | In | Neutral

  /**
   * `addInOutLink` keeps half the capacity, `addOutLink` the full capacity,
   * `addInLink` nothing, and `addNeutralLink` has no level.
   */
  function Level(role: Role, link: Link): (level: Option<real>)
    ensures role == In ==> level == Some(0.0)
    ensures role == Out ==> level == Some(link.energyCapacity)
    ensures role == InOut ==> level == Some(link.energyCapacity / 2.0)
    ensures role == Neutral <==> level.None?
  {
    match role
    case InOut => Some(link.energyCapacity / 2.0)
    case Out => Some(link.energyCapacity)
    case In => Some(0.0)
    case Neutral => None
  }

  /**
   * A well-formed in-link is never underfull and a well-formed out-link is
   * never overfull; an in/out link sits on whichever side of half its
   * capacity its energy is.
   */
  lemma RolePlacement(role: Role, link: Link)
    requires WellFormed(link)
    ensures role == In ==> !Place(link, Level(role, link).value).Underfull?
    ensures role == Out ==> !Place(link, Level(role, link).value).Overfull?
    ensures role == InOut ==>
              (Place(link, Level(role, link).value).Underfull? <==> link.energy < link.energyCapacity / 2.0)
  {
  }

  class LinkNetwork {
    var links: seq<Link>
    var neutralLinks: seq<Link>
    var underfullLinks: seq<Deviation>
    var overfullLinks: seq<Deviation>
    var energyCapacity: real
    var energy: real
    var minEnergy: real
    var maxEnergy: real

    function State(): NetState
      reads this
    {
      NetState(links, neutralLinks, underfullLinks, overfullLinks, energyCapacity, energy, minEnergy, maxEnergy)
    }

    constructor()
      ensures State() == EmptyNet && Consistent(State())
    {
      links, neutralLinks, underfullLinks, overfullLinks := [], [], [], [];
      energyCapacity, energy, minEnergy, maxEnergy := 0.0, 0.0, 0.0, 0.0;
    }

    /** `addLink`: counts the link in and files it by its level. */
    method AddLink(link: Link, level: Option<real>)
      modifies this
      ensures State() == Add(old(State()), link, level)
    {
      links := links + [link];
      energyCapacity := energyCapacity + link.energyCapacity;
      energy := energy + link.energy;
      if level.Some? {
        var d := level.value;
        minEnergy := minEnergy + d;
        maxEnergy := maxEnergy + d;
        if link.energy < d {
          underfullLinks := underfullLinks + [Deviation(link, d - link.energy)];
        } else if link.energy > d {
          overfullLinks := overfullLinks + [Deviation(link, link.energy - d)];
        }
      } else {
        neutralLinks := neutralLinks + [link];
        maxEnergy := maxEnergy + link.energyCapacity;
      }
    }

    /** `addNeutralLink`: a link with no level. */
    method AddNeutralLink(link: Link)
      modifies this
      ensures State() == Add(old(State()), link, Level(Neutral, link))
    {
      AddLink(link, None);
    }

    /** `addInLink`: a link that is filled from elsewhere and should be emptied. */
    method AddInLink(link: Link)
      modifies this
      ensures State() == Add(old(State()), link, Level(In, link))
    {
      AddLink(link, Some(0.0));
    }

    /** `addOutLink`: a link that is drained and should be kept full. */
    method AddOutLink(link: Link)
      modifies this
      ensures State() == Add(old(State()), link, Level(Out, link))
    {
      AddLink(link, Some(link.energyCapacity));
    }

    /** `addInOutLink`: a link that is both filled and drained, kept half full. */
    method AddInOutLink(link: Link)
      modifies this
      ensures State() == Add(old(State()), link, Level(InOut, link))
    {
      AddLink(link, Some(link.energyCapacity / 2.0));
    }
  }
}
