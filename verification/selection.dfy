/** Which module identifiers a thunking session intercepts.

    A session is configured with one target string or a list of them; an
    identifier is intercepted when the list holds the wildcard or the
    identifier itself, compared as whole, case-sensitive strings.
 */
module Selection {

  /** The name under which a dependency is requested from the loader. */
  type Id = string

  /** The selection entry that matches every identifier. */
  const Wildcard: Id := "*"

  /** The `targets` argument of the public operations: one string or a list. */
  datatype Targets = Single(id: Id) | List(ids: seq<Id>)

  /** The selection list a targets argument stands for. */
  function AsList(targets: Targets): seq<Id>
  {
    match targets
    case Single(id) => [id]
    case List(ids) => ids
  }

  /** The selection predicate: some entry is the wildcard or equals `id`. */
  function IsSelected(selections: seq<Id>, id: Id): (selected: bool)
    ensures Wildcard in selections ==> selected
    ensures Wildcard !in selections ==> (selected <==> id in selections)
  {
    Wildcard in selections || id in selections
  }

  /** Membership by a left-to-right scan, as an array's `includes` does it. */
  method Includes(xs: seq<Id>, x: Id) returns (found: bool)
    ensures found <==> x in xs
  {
    found := false;
    var i := 0;
    while i < |xs| && !found
      invariant 0 <= i <= |xs|
      invariant found <==> exists j :: 0 <= j < i && xs[j] == x
    {
      found := xs[i] == x;
      i := i + 1;
    }
  }

  /** The `isSelected` closure: the wildcard test first, then the exact one. */
  method Selected(selections: seq<Id>, id: Id) returns (selected: bool)
    ensures selected <==> IsSelected(selections, id)
  {
    selected := Includes(selections, Wildcard);
    if !selected {
      selected := Includes(selections, id);
    }
  }

  /** A single target string behaves as the one-element list holding it: it
      selects exactly itself, or everything when it is the wildcard. */
  lemma SingleTargetSelects(target: Id, id: Id)
    ensures AsList(Single(target)) == AsList(List([target]))
    ensures IsSelected(AsList(Single(target)), id) <==> target == Wildcard || target == id
  {
  }
}
