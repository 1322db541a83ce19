/**
 * The gateway subscription intents: a closed table of event categories, each owning
 * one bit of a 32-bit mask. A mask is the bitwise union of the categories selected.
 */
module Subscription {
  import opened Base

  /** The ten categories of the `Subscription` bit-flag table. */
  datatype Category =
    | Guilds
    | GuildMembers
    | GuildMessages
    | GuildMessageReactions
    | DirectMessage
    | Interaction
    | MessageAudit
    | ForumsEvent
    | AudioAction
    | PublicGuildMessages

  /** Every category, in the order the table declares them. */
  const AllCategories: seq<Category> :=
    [Guilds, GuildMembers, GuildMessages, GuildMessageReactions, DirectMessage,
     Interaction, MessageAudit, ForumsEvent, AudioAction, PublicGuildMessages]

  /** The bit position the table assigns to a category. */
  function Position(c: Category): nat
  {
    match c
    case Guilds => 0
    case GuildMembers => 1
    case GuildMessages => 9
    case GuildMessageReactions => 10
    case DirectMessage => 12
    case Interaction => 26
    case MessageAudit => 27
    case ForumsEvent => 28
    case AudioAction => 29
    case PublicGuildMessages => 30
  }

  /** The flag constant of a category, written as the table writes it. */
  function Flag(c: Category): bv32
  {
    match c
    case Guilds => 1 << 0
    case GuildMembers => 1 << 1
    case GuildMessages => 1 << 9
    case GuildMessageReactions => 1 << 10
    case DirectMessage => 1 << 12
    case Interaction => 1 << 26
    case MessageAudit => 1 << 27
    case ForumsEvent => 1 << 28
    case AudioAction => 1 << 29
    case PublicGuildMessages => 1 << 30
  }

  /** Whether bit `k` of a mask is set. */
  predicate HasBit(m: bv32, k: nat)
    requires k < 32
  {
    (m >> k) & 1 == 1
  }

  /** Bit-flag `contains`: every bit of the category's flag is set in the mask. */
  predicate Contains(m: bv32, c: Category)
  {
    m & Flag(c) == Flag(c)
  }

  /** The mask of the categories of `s` that occur in `cs`, folded over `cs`. */
  function FromList(s: set<Category>, cs: seq<Category>): bv32
    decreases |cs|
  {
    if cs == [] then 0
    else Selected(s, cs[0]) | FromList(s, cs[1..])
  }

  /** The mask that selects exactly the categories of `s`. */
  function FromSet(s: set<Category>): bv32
  {
    FromList(s, AllCategories)
  }

  /** The numeric value of a mask, as the `u32` the identify frame carries. */
  function Bits(m: bv32): u32
  {
    m as int
  }

  /** The set of all ten categories. */
  const EveryCategory: set<Category> :=
    {Guilds, GuildMembers, GuildMessages, GuildMessageReactions, DirectMessage,
     Interaction, MessageAudit, ForumsEvent, AudioAction, PublicGuildMessages}

  /** The union of all ten flags. */
  const AllBits: bv32 := 0x7C00_1603

  /** Each flag is exactly one bit, the one at the category's table position, below bit 31. */
  lemma FlagIsOneBit(c: Category)
    ensures Position(c) < 31
    ensures forall k :: 0 <= k < 32 ==> (HasBit(Flag(c), k) <==> k == Position(c))
  {
  }

  /** Distinct categories have disjoint flags. */
  lemma FlagsDisjoint(c: Category, d: Category)
    ensures c != d ==> Flag(c) & Flag(d) == 0
  {
  }

  /** A folded mask has the flag of `c` iff `c` is selected and listed. */
  lemma {:induction false} FromListContains(s: set<Category>, cs: seq<Category>, c: Category)
    ensures Contains(FromList(s, cs), c) <==> c in s && c in cs
    decreases |cs|
  {
    if cs != [] {
      FromListContains(s, cs[1..], c);
      FlagsDisjoint(cs[0], c);
      assert c in cs <==> c == cs[0] || c in cs[1..];
    }
  }

  /** A folded mask sets no bit outside the table. */
  lemma {:induction false} FromListWithinTable(s: set<Category>, cs: seq<Category>)
    ensures FromList(s, cs) & !AllBits == 0
    decreases |cs|
  {
    if cs != [] {
      FromListWithinTable(s, cs[1..]);
    }
  }

  /** The mask built from a set has a category's flag iff the category is in the set. */
  lemma FromSetContains(s: set<Category>, c: Category)
    ensures Contains(FromSet(s), c) <==> c in s
  {
    FromListContains(s, AllCategories, c);
    assert c in AllCategories by {
      match c
      case Guilds => assert AllCategories[0] == c;
      case GuildMembers => assert AllCategories[1] == c;
      case GuildMessages => assert AllCategories[2] == c;
      case GuildMessageReactions => assert AllCategories[3] == c;
      case DirectMessage => assert AllCategories[4] == c;
      case Interaction => assert AllCategories[5] == c;
      case MessageAudit => assert AllCategories[6] == c;
      case ForumsEvent => assert AllCategories[7] == c;
      case AudioAction => assert AllCategories[8] == c;
      case PublicGuildMessages => assert AllCategories[9] == c;
    }
  }

  /** Every mask lies within the table: bit 31 is never set, so it fits a `u32` below 2^31. */
  lemma FromSetWithinTable(s: set<Category>)
    ensures FromSet(s) & !AllBits == 0
    ensures !HasBit(FromSet(s), 31)
    ensures Bits(FromSet(s)) < 0x8000_0000
  {
    FromListWithinTable(s, AllCategories);
  }

  /** A mask is the union of the flags of its members, one table entry at a time. */
  lemma FromSetExpanded(s: set<Category>)
    ensures FromSet(s) ==
      (if Guilds in s then 1 << 0 else 0) |
      (if GuildMembers in s then 1 << 1 else 0) |
      (if GuildMessages in s then 1 << 9 else 0) |
      (if GuildMessageReactions in s then 1 << 10 else 0) |
      (if DirectMessage in s then 1 << 12 else 0) |
      (if Interaction in s then 1 << 26 else 0) |
      (if MessageAudit in s then 1 << 27 else 0) |
      (if ForumsEvent in s then 1 << 28 else 0) |
      (if AudioAction in s then 1 << 29 else 0) |
      (if PublicGuildMessages in s then 1 << 30 else 0)
  {
    FromListWithinTable(s, AllCategories);
    FromSetContains(s, Guilds);
    FromSetContains(s, GuildMembers);
    FromSetContains(s, GuildMessages);
    FromSetContains(s, GuildMessageReactions);
    FromSetContains(s, DirectMessage);
    FromSetContains(s, Interaction);
    FromSetContains(s, MessageAudit);
    FromSetContains(s, ForumsEvent);
    FromSetContains(s, AudioAction);
    FromSetContains(s, PublicGuildMessages);
  }

  /** Building a mask distributes over set union. */
  lemma {:induction false} FromListUnion(s: set<Category>, t: set<Category>, cs: seq<Category>)
    ensures FromList(s + t, cs) == FromList(s, cs) | FromList(t, cs)
    decreases |cs|
  {
    if cs != [] {
      var c, rest := cs[0], cs[1..];
      FromListUnion(s, t, rest);
      SelectedUnion(s, t, c);
      UnionInterchange(Selected(s, c), Selected(t, c), FromList(s, rest), FromList(t, rest));
    }
  }

  /** The flag a fold step contributes: the category's flag if it is selected, else nothing. */
  function Selected(s: set<Category>, c: Category): bv32
  {
    if c in s then Flag(c) else 0
  }

  /** Selecting from a union of sets is the union of the selections. */
  lemma SelectedUnion(s: set<Category>, t: set<Category>, c: Category)
    ensures Selected(s + t, c) == Selected(s, c) | Selected(t, c)
  {
  }

  /** Regrouping four masks under union. */
  lemma UnionInterchange(a: bv32, b: bv32, c: bv32, d: bv32)
    ensures (a | b) | (c | d) == (a | c) | (b | d)
  {
  }

  /** mask(S ∪ T) == mask(S) | mask(T). */
  lemma FromSetUnion(s: set<Category>, t: set<Category>)
    ensures FromSet(s + t) == FromSet(s) | FromSet(t)
  {
    FromListUnion(s, t, AllCategories);
  }

  /** Union of masks is commutative, associative and idempotent. */
  lemma UnionLaws(a: bv32, b: bv32, c: bv32)
    ensures a | b == b | a
    ensures (a | b) | c == a | (b | c)
    ensures a | a == a
  {
  }

  /** Different selections give different masks. */
  lemma FromSetInjective(s: set<Category>, t: set<Category>)
    ensures FromSet(s) == FromSet(t) <==> s == t
  {
    if FromSet(s) == FromSet(t) {
      forall c: Category ensures c in s <==> c in t {
        FromSetContains(s, c);
        FromSetContains(t, c);
      }
    }
  }

  /** The four categories the identify frame subscribes to give (1 << 9) | (1 << 10) | (1 << 26) | (1 << 30). */
  lemma IdentifySelection()
    ensures FromSet({GuildMessages, GuildMessageReactions, Interaction, PublicGuildMessages})
      == (1 << 9) | (1 << 10) | (1 << 26) | (1 << 30)
    ensures Bits(FromSet({GuildMessages, GuildMessageReactions, Interaction, PublicGuildMessages}))
      == 0x4400_0600
  {
    FromSetExpanded({GuildMessages, GuildMessageReactions, Interaction, PublicGuildMessages});
    assert FromSet({GuildMessages, GuildMessageReactions, Interaction, PublicGuildMessages}) == 0x4400_0600;
  }

  /** All ten flags together are 0x7C001603. */
  lemma AllSelection()
    ensures FromSet(EveryCategory) == AllBits
    ensures Bits(FromSet(EveryCategory)) == 0x7C00_1603
  {
    FromSetExpanded(EveryCategory);
    assert FromSet(EveryCategory) == 0x7C00_1603;
  }
}
