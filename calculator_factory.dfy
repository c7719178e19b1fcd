/** The list of permission processors a calculator consults, chosen from three configuration
    flags. */
module CalculatorFactory {

  datatype Processor = DirectProcessor | RegexProcessor | WildcardProcessor | SpongeWildcardProcessor

  /** The position each processor takes in a list. */
  function Rank(p: Processor): nat
  {
    match p
    case DirectProcessor => 0
    case RegexProcessor => 1
    case WildcardProcessor => 2
    case SpongeWildcardProcessor => 3
  }

  /** The configuration keys the factory reads: APPLYING_REGEX, APPLYING_WILDCARDS and
      APPLYING_WILDCARDS_SPONGE. */
  datatype CalculatorConfig = CalculatorConfig(applyingRegex: bool, applyingWildcards: bool, applyingWildcardsSponge: bool)

  /** Whether the configuration asks for `p`; the direct processor is always wanted. */
  predicate Wanted(config: CalculatorConfig, p: Processor)
  {
    match p
    case DirectProcessor => true
    case RegexProcessor => config.applyingRegex
    case WildcardProcessor => config.applyingWildcards
    case SpongeWildcardProcessor => config.applyingWildcardsSponge
  }

  function FlagCount(config: CalculatorConfig): nat
  {
    (if config.applyingRegex then 1 else 0)
    + (if config.applyingWildcards then 1 else 0)
    + (if config.applyingWildcardsSponge then 1 else 0)
  }

  /** Ranks strictly increase along the list: the fixed order, and no processor twice. */
  predicate StrictlyOrdered(ps: seq<Processor>)
  {
    forall i, j | 0 <= i < j < |ps| :: Rank(ps[i]) < Rank(ps[j])
  }

  /** What a processor list for `config` must look like. */
  predicate Conforms(config: CalculatorConfig, ps: seq<Processor>)
  {
    && ps != [] && ps[0] == DirectProcessor
    && StrictlyOrdered(ps)
    && forall p :: p in ps <==> Wanted(config, p)
  }

  /** Fills the list by conditional appends, in the order of the configuration keys. */
  method Build(config: CalculatorConfig) returns (processors: seq<Processor>)
    ensures Conforms(config, processors)
    ensures |processors| == 1 + FlagCount(config) <= 4
  {
    processors := [];
    processors := processors + [DirectProcessor];
    if config.applyingRegex {
      processors := processors + [RegexProcessor];
    }
    if config.applyingWildcards {
      processors := processors + [WildcardProcessor];
    }
    if config.applyingWildcardsSponge {
      processors := processors + [SpongeWildcardProcessor];
    }
  }

  /** The first member of a non-empty strictly ordered list has the least rank of its members. */
  lemma FirstIsLeast(a: seq<Processor>, p: Processor)
    requires StrictlyOrdered(a) && p in a
    ensures Rank(a[0]) <= Rank(p)
  {
    var i :| 0 <= i < |a| && a[i] == p;
    if i > 0 {
      assert Rank(a[0]) < Rank(a[i]);
    }
  }

  /** Dropping the first member of a strictly ordered list removes exactly that member. */
  lemma TailMembers(a: seq<Processor>, p: Processor)
    requires StrictlyOrdered(a) && a != []
    ensures p in a[1..] <==> p in a && p != a[0]
  {
    if p in a[1..] {
      var k :| 0 <= k < |a[1..]| && a[1..][k] == p;
      assert Rank(a[0]) < Rank(a[k + 1]);
    }
    if p in a && p != a[0] {
      var m :| 0 <= m < |a| && a[m] == p;
      assert a[1..][m - 1] == p;
    }
  }

  lemma SameMembersSameEmptiness(a: seq<Processor>, b: seq<Processor>)
    requires forall p :: p in a <==> p in b
    ensures a == [] <==> b == []
  {
    if a != [] {
      assert a[0] in b;
    }
    if b != [] {
      assert b[0] in a;
    }
  }

  /** Two strictly ordered lists with the same members are the same list. */
  lemma {:induction false} OrderedListsWithSameMembersAreEqual(a: seq<Processor>, b: seq<Processor>)
    requires StrictlyOrdered(a) && StrictlyOrdered(b)
    requires forall p :: p in a <==> p in b
    ensures a == b
  {
    SameMembersSameEmptiness(a, b);
    if a != [] {
      FirstIsLeast(a, b[0]);
      FirstIsLeast(b, a[0]);
      assert a[0] == b[0];
      forall p
        ensures p in a[1..] <==> p in b[1..]
      {
        TailMembers(a, p);
        TailMembers(b, p);
      }
      OrderedListsWithSameMembersAreEqual(a[1..], b[1..]);
      assert a == [a[0]] + a[1..] && b == [b[0]] + b[1..];
    }
  }

  /** The list depends only on the three flags: any two conforming lists coincide. */
  lemma ProcessorListIsDetermined(config: CalculatorConfig, a: seq<Processor>, b: seq<Processor>)
    requires Conforms(config, a) && Conforms(config, b)
    ensures a == b
  {
    OrderedListsWithSameMembersAreEqual(a, b);
  }
}
