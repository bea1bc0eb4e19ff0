/** The shared pool of HTTP client connections the resolvers borrow from. */
module Pool {
  import opened Upstream

  /** A pooled client, known by the order in which the pool created it. */
  type Connection = nat

  class ConnectionPool {
    /** Connections created and waiting to be lent. */
    var idle: set<Connection>
    /** Connections currently lent to a borrower. */
    var lent: set<Connection>
    /** How many connections the pool has created. */
    var created: nat
    ghost var acquired: nat
    ghost var released: nat
    /** Every request sent, with the connection it went over. */
    ghost var requests: seq<(Connection, string)>

    /** No connection is both idle and lent, all were created by this pool,
        and every acquisition not yet released is one lent connection. */
    ghost predicate Valid()
      reads this
    {
      && idle !! lent
      && (forall c :: c in idle ==> c < created)
      && (forall c :: c in lent ==> c < created)
      && acquired == released + |lent|
    }

    constructor ()
      ensures Valid()
      ensures idle == {} && lent == {} && created == 0
      ensures acquired == 0 && released == 0 && requests == []
    {
      idle, lent, created := {}, {}, 0;
      acquired, released, requests := 0, 0, [];
    }

    /** Lends a connection no one else holds: an idle one if there is one,
        otherwise a newly created one. */
    method Acquire() returns (c: Connection)
      requires Valid()
      modifies this
      ensures Valid()
      ensures c !in old(lent) && lent == old(lent) + {c}
      ensures old(idle) == {} ==> c == old(created) && created == old(created) + 1 && idle == {}
      ensures old(idle) != {} ==> c in old(idle) && created == old(created) && idle == old(idle) - {c}
      ensures acquired == old(acquired) + 1 && released == old(released)
      ensures requests == old(requests)
    {
      if idle == {} {
        c := created;
        created := created + 1;
      } else {
        c :| c in idle;
        idle := idle - {c};
      }
      lent := lent + {c};
      acquired := acquired + 1;
    }

    /** Takes back a lent connection and makes it available again. */
    method Release(c: Connection)
      requires Valid() && c in lent
      modifies this
      ensures Valid()
      ensures lent == old(lent) - {c} && idle == old(idle) + {c} && created == old(created)
      ensures acquired == old(acquired) && released == old(released) + 1
      ensures requests == old(requests)
    {
      lent := lent - {c};
      idle := idle + {c};
      released := released + 1;
    }

    /** A GET of `path` over a borrowed connection; `reply` is what the
        service answers. */
    method Get<T>(c: Connection, path: string, reply: Fetch<T>) returns (r: Fetch<T>)
      requires Valid() && c in lent
      modifies this`requests
      ensures Valid()
      ensures r == reply
      ensures requests == old(requests) + [(c, path)]
    {
      requests := requests + [(c, path)];
      r := reply;
    }
  }
}
