/** Java runtime notions the plugin relies on: nullable references, the range
    of `Integer`, and the two exceptions that can escape a run. */
module Java {

  /** A reference that may be null. */
  datatype Option<+T> = None | Some(value: T)

  /** `Integer.MAX_VALUE`: `Integer.parseInt` rejects any larger digit run. */
  const MaxInt: nat := 0x7fff_ffff

  /** Exceptions the plugin meets. The first two are not caught inside the
      plugin and end a run; the third is caught around each ticket update. */
  datatype JavaException =
    | NumberFormat   // Integer.parseInt on a digit run above MaxInt
    | MalformedUrl   // new URL(rpcAddress) refused the configured address
    | XmlRpc         // the tracker refused a ticket.update call

  /** How a call ended: it returned, or an exception escaped it. */
  datatype Exit = Normal | Thrown(error: JavaException)

  /** The value of a call that returns normally, or the exception it threw. */
  datatype Result<+T> = Ok(value: T) | Err(error: JavaException)

  /** Sequence concatenation is associative. */
  lemma ConcatAssoc<T>(x: seq<T>, y: seq<T>, z: seq<T>)
    ensures (x + y) + z == x + (y + z)
  {
  }

  // ---------------------------------------------------------------------
  // Enumerating a HashSet: the iteration order is not specified, so an
  // enumeration is any sequence with the same elements, each once

  /** Moving one element from the rest of a set to the end of its
      enumeration keeps the two together equal to the set. */
  lemma TakeOne(order: seq<nat>, remaining: set<nat>, issues: set<nat>, x: nat)
    requires multiset(order) + multiset(remaining) == multiset(issues)
    requires x in remaining
    ensures multiset(order + [x]) + multiset(remaining - {x}) == multiset(issues)
  {
    assert multiset(remaining) == multiset(remaining - {x}) + multiset{x};
  }

  /** An enumeration of a set is empty iff the set is. */
  lemma EnumerationEmpty(order: seq<nat>, issues: set<nat>)
    requires multiset(order) == multiset(issues)
    ensures order == [] <==> issues == {}
  {
    if issues != {} {
      var x :| x in issues;
      assert x in multiset(order);
    }
    if order != [] {
      assert order[0] in multiset(issues);
    }
  }
}
