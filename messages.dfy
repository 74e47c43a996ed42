/**
 * Message types as tags with a subclass relation.
 *
 * A step declares the class of messages it accepts, and it accepts instances of that class and of
 * every direct or indirect subclass. Classes form a single-inheritance tree, so a class is
 * identified here by its lineage: the names of its superclasses from the top of the tree down to
 * the class itself. `Object` is the empty lineage, and one class is a subclass of another exactly
 * when the other's lineage is a prefix of its own.
 */
module Messages {

  datatype MessageClass = MessageClass(lineage: seq<string>)

  /** An incoming command, event or exception: its runtime class and its textual content. */
  datatype Message = Message(cls: MessageClass, text: string)

  /** The root of the tree. */
  const ObjectClass := MessageClass([])

  /**
   * The class of the runner itself: an autonomous system step accepts it, and the runner reacts
   * to itself to trigger such steps.
   */
  const RunnerClass := MessageClass(["ModelRunner"])

  const RunnerMessage := Message(RunnerClass, "")

  /** Declares a direct subclass named `name` of `superclass`. */
  function Subclass(superclass: MessageClass, name: string): (c: MessageClass)
    ensures IsSameOrSubclass(c, superclass) && !IsSameOrSubclass(superclass, c)
  {
    IsPrefixIsSeqPrefix(superclass.lineage, superclass.lineage + [name]);
    IsPrefixIsSeqPrefix(superclass.lineage + [name], superclass.lineage);
    MessageClass(superclass.lineage + [name])
  }

  /**
   * `c` is `d` or a direct or indirect subclass of `d`: among classes, what Java's
   * `d.isAssignableFrom(c)` states; interface types, which make that relation a graph rather
   * than a tree, are not modelled.
   */
  predicate IsSameOrSubclass(c: MessageClass, d: MessageClass) {
    IsPrefix(d.lineage, c.lineage)
  }

  /** `a` is a prefix of `b`, compared name by name from the top of the tree. */
  predicate IsPrefix(a: seq<string>, b: seq<string>) {
    |a| <= |b| && (|a| == 0 || (a[0] == b[0] && IsPrefix(a[1..], b[1..])))
  }

  /** The name-by-name comparison is the prefix relation on sequences. */
  lemma {:induction false} IsPrefixIsSeqPrefix(a: seq<string>, b: seq<string>)
    ensures IsPrefix(a, b) <==> a <= b
  {
    if |a| > 0 && |b| > 0 {
      IsPrefixIsSeqPrefix(a[1..], b[1..]);
      if a <= b {
        assert a[1..] <= b[1..];
      }
      if a[0] == b[0] && a[1..] <= b[1..] {
        assert a == [a[0]] + a[1..] && b == [b[0]] + b[1..];
      }
    }
  }

  /** The message is an instance of class `c` or of any of its subclasses. */
  predicate IsInstanceOf(m: Message, c: MessageClass) {
    IsSameOrSubclass(m.cls, c)
  }

  lemma SubclassIsReflexive(c: MessageClass)
    ensures IsSameOrSubclass(c, c)
  {
    IsPrefixIsSeqPrefix(c.lineage, c.lineage);
  }

  lemma SubclassIsTransitive(a: MessageClass, b: MessageClass, c: MessageClass)
    requires IsSameOrSubclass(a, b) && IsSameOrSubclass(b, c)
    ensures IsSameOrSubclass(a, c)
  {
    IsPrefixIsSeqPrefix(b.lineage, a.lineage);
    IsPrefixIsSeqPrefix(c.lineage, b.lineage);
    IsPrefixIsSeqPrefix(c.lineage, a.lineage);
  }

  lemma SubclassIsAntisymmetric(a: MessageClass, b: MessageClass)
    requires IsSameOrSubclass(a, b) && IsSameOrSubclass(b, a)
    ensures a == b
  {
    IsPrefixIsSeqPrefix(b.lineage, a.lineage);
    IsPrefixIsSeqPrefix(a.lineage, b.lineage);
  }

  /**
   * Single inheritance: two classes a message is an instance of are related, one is a subclass of
   * the other. A message can therefore never be an instance of two unrelated classes.
   */
  lemma SuperclassesAreComparable(c: MessageClass, a: MessageClass, b: MessageClass)
    requires IsSameOrSubclass(c, a) && IsSameOrSubclass(c, b)
    ensures IsSameOrSubclass(a, b) || IsSameOrSubclass(b, a)
  {
    IsPrefixIsSeqPrefix(a.lineage, c.lineage);
    IsPrefixIsSeqPrefix(b.lineage, c.lineage);
    IsPrefixIsSeqPrefix(a.lineage, b.lineage);
    IsPrefixIsSeqPrefix(b.lineage, a.lineage);
    if |a.lineage| <= |b.lineage| {
      assert a.lineage == c.lineage[..|a.lineage|];
      assert b.lineage == c.lineage[..|b.lineage|];
      assert a.lineage == b.lineage[..|a.lineage|];
    } else {
      assert b.lineage == c.lineage[..|b.lineage|];
      assert a.lineage == c.lineage[..|a.lineage|];
      assert b.lineage == a.lineage[..|b.lineage|];
    }
  }
}
