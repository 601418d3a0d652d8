/** `rticx-async/src/wait_queue.rs`: the intrusive doubly linked list on the heap, proved to be a sequence.
    Every method body is one critical section. */
module WaitQueues {
  import opened Wrappers

  /** `r` is `s` without its element `x` at position `k`. */
  ghost predicate CutAt<X>(s: seq<X>, x: X, r: seq<X>, k: nat) {
    k < |s| && s[k] == x && r == s[..k] + s[k + 1..]
  }

  /** `r` is `s` without the element `x`, everything else in order; `s` itself if `x` is not in it. */
  ghost predicate Deletes<X>(s: seq<X>, x: X, r: seq<X>) {
    if x in s then exists k :: CutAt(s, x, r, k) else r == s
  }

  lemma CutDeletes<X>(s: seq<X>, x: X, r: seq<X>, k: nat)
    requires CutAt(s, x, r, k) && forall i, j :: 0 <= i < j < |s| ==> s[i] != s[j]
    ensures Deletes(s, x, r)
    ensures forall y :: y in r <==> y in s && y != x
  {
    assert s == s[..k] + [x] + s[k + 1..];
  }

  class Link<T> {
    const val: T
    var next: Link?<T>
    var prev: Link?<T>
    var isPopped: bool

    constructor (val: T)
      ensures this.val == val && next == null && prev == null && !isPopped
    {
      this.val := val;
      next, prev, isPopped := null, null, false;
    }

    /** Deletes this link wherever it stands in the list; does nothing to the list if it was popped or removed
        before. */
    method RemoveFromList(list: DoublyLinkedList<T>)
      requires list.Valid()
      // the link was pushed on this list, or never pushed
      requires this in list.pushed || (!isPopped && next == null && prev == null)
      modifies this, list, list.links
      ensures list.Valid() && isPopped && list.pushed == old(list.pushed)
      ensures Deletes(old(list.links), this, list.links)
      ensures old(isPopped) ==> unchanged(this) && unchanged(list) && unchanged(list.links)
    {
      if isPopped {
        assert this !in list.links;
        return;
      }
      isPopped := true;
      ghost var was := list.links;
      ghost var k := |was|;
      if this in was {
        k :| 0 <= k < |was| && was[k] == this;
      }
      list.Splice(this, k);
      if k < |was| {
        CutDeletes(was, this, list.links, k);
      }
      forall l | l in list.pushed ensures l.isPopped <==> l !in list.links {
        assert l != this ==> l.isPopped == old(l.isPopped) && (old(l.isPopped) <==> l !in was);
      }
    }
  }

  class DoublyLinkedList<T> {
    var head: Link?<T>
    var tail: Link?<T>
    /** The waiting links in order, and all links ever pushed. */
    ghost var links: seq<Link<T>>
    ghost var pushed: set<Link<T>>

    /** head and tail are the ends, next and prev mutually inverse. */
    ghost predicate Linked()
      reads this, links
    {
      && (head == if links == [] then null else links[0])
      && (tail == if links == [] then null else links[|links| - 1])
      && (links != [] ==> links[0].prev == null && links[|links| - 1].next == null)
      && (forall i {:trigger links[i].prev} :: 1 <= i < |links| ==> links[i].prev == links[i - 1])
      && (forall i {:trigger links[i].next} :: 0 <= i < |links| - 1 ==> links[i].next == links[i + 1])
      && (forall i, j :: 0 <= i < j < |links| ==> links[i] != links[j])
    }

    /** ... and a link that was ever pushed is popped exactly when it is out of the list. */
    ghost predicate Valid()
      reads this, links, pushed
    {
      && Linked()
      && (forall i :: 0 <= i < |links| ==> links[i] in pushed)
      && (forall l :: l in pushed ==> (l.isPopped <==> l !in links))
    }

    constructor ()
      ensures Valid() && links == [] && pushed == {}
    {
      head, tail, links, pushed := null, null, [], {};
    }

    // The three arms of `remove_from_list` for a link with a neighbour: `n` follows it, `p` precedes it.

    method DropFirst(n: Link<T>)
      requires Linked() && |links| > 1 && n == links[1]
      modifies `head, `links, n`prev
      ensures Linked() && links == old(links[1..])
    {
      assert links[0].next == links[1];
      n.prev := null;
      head := n;
      links := links[1..];
    }

    method DropLast(p: Link<T>)
      requires Linked() && |links| > 1 && p == links[|links| - 2]
      modifies `tail, `links, p`next
      ensures Linked() && links == old(links[..|links| - 1])
    {
      p.next := null;
      tail := p;
      links := links[..|links| - 1];
    }

    method Bridge(ghost k: nat, p: Link<T>, n: Link<T>)
      requires Linked() && 1 <= k < |links| - 1 && p == links[k - 1] && n == links[k + 1]
      modifies `links, p`next, n`prev
      ensures Linked() && links == old(links[..k] + links[k + 1..])
    {
      p.next := n;
      n.prev := p;
      links := links[..k] + links[k + 1..];
    }

    /** The `match` of `remove_from_list`; `k` is the position of `link`, or `|links|` if it is not in the list. */
    method Splice(link: Link<T>, ghost k: nat)
      requires Linked() && k <= |links|
      requires if k < |links| then links[k] == link else link !in links && link.next == null && link.prev == null
      modifies `head, `tail, `links, (set l | l in links)`next, (set l | l in links)`prev
      ensures Linked()
      ensures links == if k < |old(links)| then old(links[..k] + links[k + 1..]) else old(links)
    {
      var p, n := link.prev, link.next;
      assert k < |links| ==> links[k].prev == p && links[k].next == n;
      if p == null && n == null {
        if head == link {
          assert links == [link];
          head := null;
          tail := null;
          links := [];
        }
      } else if p == null {
        DropFirst(n);
      } else if n == null {
        DropLast(p);
      } else {
        Bridge(k, p, n);
      }
    }

    method Pop() returns (r: Option<T>)
      requires Valid()
      modifies this, links
      ensures Valid() && pushed == old(pushed)
      ensures old(links) == [] ==> r == None && links == []
      ensures old(links) != [] ==> r == Some(old(links)[0].val) && links == old(links)[1..] && old(links)[0].isPopped
    {
      var h := head;
      if h == null {
        return None;
      }
      assert h == links[0] && links[0].next == h.next;
      head := h.next;
      var v := h.val;
      if h == tail {
        tail := null;
      }
      if h.next != null {
        h.next.prev := null;
      }
      h.next := null;
      h.prev := null;
      h.isPopped := true;
      links := links[1..];
      return Some(v);
    }

    /** `link` is new: it has just been made by `Link::new`. */
    method Push(link: Link<T>)
      requires Valid() && link !in pushed
      requires link.next == null && link.prev == null && !link.isPopped
      modifies this, links, link
      ensures Valid() && links == old(links) + [link] && pushed == old(pushed) + {link} && !link.isPopped
    {
      if tail != null {
        link.prev := tail;
        tail.next := link;
        tail := link;
      } else {
        tail := link;
        head := link;
      }
      links := links + [link];
      pushed := pushed + {link};
    }

    method IsEmpty() returns (r: bool)
      requires Valid()
      ensures r <==> links == []
    {
      r := head == null;
    }
  }
}
