/**
 * The category search of the menu modal (src/components/menu/CategoryModal.tsx):
 * the effect that narrows the store menu to the parents and children whose
 * titles contain the search text, ignoring case.
 */
module CategoryModal {
  import opened Strings
  import opened Catalog

  /** `title.toLowerCase().includes(search.toLowerCase())`. */
  predicate Matches(title: string, search: string) {
    Includes(ToLower(title), ToLower(search))
  }

  /** `children.filter(child => matches(child.title))`. */
  function MatchingChildren(children: seq<MenuChild>, search: string): seq<MenuChild>
    decreases |children|
  {
    if |children| == 0 then []
    else (if Matches(children[0].title, search) then [children[0]] else []) + MatchingChildren(children[1..], search)
  }

  /** A parent stays when its title or one of its children's titles matches. */
  predicate Kept(parent: MenuEntry, search: string) {
    Matches(parent.title, search) || |MatchingChildren(parent.children, search)| > 0
  }

  /** `{ ...parent, children: matchingChildren }`. */
  function Pruned(parent: MenuEntry, search: string): MenuEntry {
    parent.(children := MatchingChildren(parent.children, search))
  }

  /** The `map` to a pruned parent or `null`, then `filter(Boolean)`. */
  function FilterMenu(menu: seq<MenuEntry>, search: string): seq<MenuEntry>
    decreases |menu|
  {
    if |menu| == 0 then []
    else (if Kept(menu[0], search) then [Pruned(menu[0], search)] else []) + FilterMenu(menu[1..], search)
  }

  /** The letter case of the search text, or of a title, does not matter. */
  lemma MatchesIgnoresCase(title: string, search: string)
    ensures Matches(title, search) == Matches(ToLower(title), search)
    ensures Matches(title, search) == Matches(title, ToLower(search))
  {
    ToLowerIdempotent(title);
    ToLowerIdempotent(search);
  }

  /** The children kept are exactly those whose title matches. */
  lemma {:induction false} MatchingChildrenMembers(children: seq<MenuChild>, search: string)
    ensures forall c :: c in MatchingChildren(children, search) <==> c in children && Matches(c.title, search)
    decreases |children|
  {
    if |children| > 0 {
      MatchingChildrenMembers(children[1..], search);
      assert children == [children[0]] + children[1..];
    }
  }

  /** Filtering children works piece by piece: their order is kept. */
  lemma {:induction false} MatchingChildrenAppend(a: seq<MenuChild>, b: seq<MenuChild>, search: string)
    ensures MatchingChildren(a + b, search) == MatchingChildren(a, search) + MatchingChildren(b, search)
    decreases |a|
  {
    if |a| > 0 {
      assert (a + b)[1..] == a[1..] + b;
      MatchingChildrenAppend(a[1..], b, search);
    } else {
      assert a + b == b;
    }
  }

  /** Filtering the menu works piece by piece: the parents kept stay in menu order. */
  lemma {:induction false} FilterMenuAppend(a: seq<MenuEntry>, b: seq<MenuEntry>, search: string)
    ensures FilterMenu(a + b, search) == FilterMenu(a, search) + FilterMenu(b, search)
    decreases |a|
  {
    if |a| > 0 {
      assert (a + b)[1..] == a[1..] + b;
      FilterMenuAppend(a[1..], b, search);
    } else {
      assert a + b == b;
    }
  }

  /** One parent is kept, with its children narrowed, exactly when it or a child matches. */
  lemma FilterMenuSingle(parent: MenuEntry, search: string)
    ensures FilterMenu([parent], search) == (if Kept(parent, search) then [Pruned(parent, search)] else [])
    ensures Kept(parent, search) <==>
      Matches(parent.title, search) || exists k | 0 <= k < |parent.children| :: Matches(parent.children[k].title, search)
  {
    MatchingChildrenMembers(parent.children, search);
    var m := MatchingChildren(parent.children, search);
    if |m| > 0 {
      assert m[0] in m;
    }
  }

  /** Every entry of the result is a kept parent of the menu, pruned; every kept parent is there. */
  lemma {:induction false} FilterMenuMembers(menu: seq<MenuEntry>, search: string)
    ensures forall e :: e in FilterMenu(menu, search) <==>
      exists k | 0 <= k < |menu| :: Kept(menu[k], search) && e == Pruned(menu[k], search)
    decreases |menu|
  {
    if |menu| > 0 {
      FilterMenuMembers(menu[1..], search);
      forall e
        ensures e in FilterMenu(menu, search) <==>
          exists k | 0 <= k < |menu| :: Kept(menu[k], search) && e == Pruned(menu[k], search)
      {
        if e in FilterMenu(menu[1..], search) {
          var k :| 0 <= k < |menu[1..]| && Kept(menu[1..][k], search) && e == Pruned(menu[1..][k], search);
          assert menu[k + 1] == menu[1..][k];
        }
        if exists k | 0 <= k < |menu| :: Kept(menu[k], search) && e == Pruned(menu[k], search) {
          var k :| 0 <= k < |menu| && Kept(menu[k], search) && e == Pruned(menu[k], search);
          if k > 0 {
            assert menu[1..][k - 1] == menu[k];
          }
        }
      }
    }
  }

  /** The result is never longer than the menu. */
  lemma {:induction false} FilterMenuShorter(menu: seq<MenuEntry>, search: string)
    ensures |FilterMenu(menu, search)| <= |menu|
    decreases |menu|
  {
    if |menu| > 0 {
      FilterMenuShorter(menu[1..], search);
    }
  }

  /** Every title includes the empty text. */
  lemma EmptyMatchesAll(title: string)
    ensures Matches(title, "")
  {
    IncludesEmpty(ToLower(title));
  }

  /** An empty search keeps every child. */
  lemma {:induction false} EmptySearchKeepsChildren(children: seq<MenuChild>)
    ensures MatchingChildren(children, "") == children
    decreases |children|
  {
    if |children| > 0 {
      EmptyMatchesAll(children[0].title);
      EmptySearchKeepsChildren(children[1..]);
      assert children == [children[0]] + children[1..];
    }
  }

  /** An empty search keeps the whole menu as it is. */
  lemma {:induction false} EmptySearchKeepsMenu(menu: seq<MenuEntry>)
    ensures FilterMenu(menu, "") == menu
    decreases |menu|
  {
    if |menu| > 0 {
      EmptyMatchesAll(menu[0].title);
      EmptySearchKeepsChildren(menu[0].children);
      EmptySearchKeepsMenu(menu[1..]);
      assert Pruned(menu[0], "") == menu[0];
      assert menu == [menu[0]] + menu[1..];
    }
  }
}
