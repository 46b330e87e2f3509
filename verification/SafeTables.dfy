/** The routing table shared between the routing and forwarding planes. */
module SafeTables {
  import opened Options
  import opened Ordering
  import opened ShortestPaths

  /** The table shared with the forwarding plane. */
  class SafeTable {
    var table: Table

    constructor ()
      ensures table == map[]
    {
      table := map[];
    }

    method Replace(t: Table)
      modifies this
      ensures table == t
    {
      table := t;
    }

    method Lookup(dest: Id) returns (route: Option<Route>)
      ensures route == if dest in table then Some(table[dest]) else None
    {
      if dest in table { return Some(table[dest]); }
      return None;
    }

    method Snapshot() returns (copy: Table)
      ensures copy == table
    {
      copy := map[];
      var left := table.Keys;
      while left != {}
        invariant left <= table.Keys
        invariant copy == map k | k in table && k !in left :: table[k]
      {
        var k :| k in left;
        copy := copy[k := table[k]];
        left := left - {k};
      }
    }
  }
}
