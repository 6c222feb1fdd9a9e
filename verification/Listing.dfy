/** Listing everything a paginated endpoint holds, and looking an item up by its display name. */
module Listing {
  import opened Wrappers

  // ---- The server ----

  /** A page and the link to the next one: unset, or a URL, which is empty on some last pages. */
  datatype Page<T> = Page(data: seq<T>, next: Option<string>)

  /** The pages by page token, the first under the empty token; a request for any other token fails.
      `tokenOf` takes the page token out of a URL, or fails; it never finds an empty one. */
  datatype Server<!T> = Server(pages: map<string, Page<T>>, tokenOf: string -> Option<string>)

  datatype Next = Last | More(token: string) | Broken

  function NextOf<T>(s: Server<T>, p: Page<T>): Next {
    match p.next
    case None => Last
    case Some(url) =>
      if url == "" then Last
      else
        match s.tokenOf(url)
        case None => Broken
        case Some(t) => More(t)
  }

  datatype ListError = ListFailed

  // ---- What a walk over the pages meets ----

  /** The token of the k-th request, if the walk gets there. */
  function TokenAt<T>(s: Server<T>, k: nat): Option<string> {
    if k == 0 then Some("")
    else
      match TokenAt(s, k - 1)
      case None => None
      case Some(t) =>
        if t !in s.pages || !LinksOn(s.pages[t]) then None else s.tokenOf(s.pages[t].next.value)
  }

  /** The page has a link to another one: set, and not empty. */
  predicate LinksOn<T>(p: Page<T>) {
    p.next != None && p.next != Some("")
  }

  /** The walk from a token is over within n requests. */
  ghost predicate Ends<T>(s: Server<T>, token: string, n: nat)
    decreases n
  {
    n > 0
    && (token in s.pages ==>
          match NextOf(s, s.pages[token])
          case More(t) => Ends(s, t, n - 1)
          case _ => true)
  }

  ghost predicate Terminates<T>(s: Server<T>) {
    exists n: nat :: Ends(s, "", n)
  }

  function After<T>(items: seq<T>, rest: Result<seq<T>, ListError>): Result<seq<T>, ListError> {
    match rest
    case Err(e) => Err(e)
    case Ok(more) => Ok(items + more)
  }

  lemma AfterAfter<T>(a: seq<T>, b: seq<T>, rest: Result<seq<T>, ListError>)
    ensures After(a, After(b, rest)) == After(a + b, rest)
    ensures After([], rest) == rest
  {
    if rest.Ok? {
      assert a + (b + rest.value) == a + b + rest.value;
      assert [] + rest.value == rest.value;
    }
  }

  /** The items from a token on; one bad page spoils them all. */
  ghost function Listed<T>(s: Server<T>, token: string, n: nat): Result<seq<T>, ListError>
    requires Ends(s, token, n)
    decreases n
  {
    if token !in s.pages then Err(ListFailed)
    else
      match NextOf(s, s.pages[token])
      case Last => Ok(s.pages[token].data)
      case Broken => Err(ListFailed)
      case More(t) =>
        After(s.pages[token].data, Listed(s, t, n - 1))
  }

  ghost function Everything<T>(s: Server<T>): Result<seq<T>, ListError>
    requires Terminates(s)
  {
    var n: nat :| Ends(s, "", n);
    Listed(s, "", n)
  }

  lemma {:induction false} BoundDoesNotMatter<T>(s: Server<T>, token: string, n: nat, m: nat)
    requires Ends(s, token, n) && Ends(s, token, m)
    ensures Listed(s, token, n) == Listed(s, token, m)
    decreases n
  {
    if token in s.pages {
      match NextOf(s, s.pages[token])
      case More(t) => BoundDoesNotMatter(s, t, n - 1, m - 1);
      case _ =>
    }
  }

  /** Follows the links until a page has none. */
  method LoadAll<T>(s: Server<T>) returns (r: Result<seq<T>, ListError>)
    requires Terminates(s)
    ensures r == Everything(s)
  {
    var items: seq<T> := [];
    var allCollected := false;
    var pageToken := "";
    ghost var bound: nat :| Ends(s, "", bound);
    ghost var start := bound;
    AfterAfter([], [], Listed(s, "", start));
    while !allCollected
      invariant Ends(s, "", start)
      invariant !allCollected ==>
                  && Ends(s, pageToken, bound)
                  && Listed(s, "", start) == After(items, Listed(s, pageToken, bound))
      invariant allCollected ==> Listed(s, "", start) == Ok(items)
      decreases if allCollected then 0 else bound
    {
      if pageToken !in s.pages {
        ghost var n: nat :| Ends(s, "", n) && Everything(s) == Listed(s, "", n);
        BoundDoesNotMatter(s, "", start, n);
        return Err(ListFailed);
      }
      var page := s.pages[pageToken];
      items := items + page.data;
      if page.next.Some? {
        var nextUrl := page.next.value;
        if nextUrl == "" {
          allCollected := true;
        } else {
          var token := s.tokenOf(nextUrl);
          if token.None? {
            ghost var n: nat :| Ends(s, "", n) && Everything(s) == Listed(s, "", n);
            BoundDoesNotMatter(s, "", start, n);
            return Err(ListFailed);
          }
          AfterAfter(items[..|items| - |page.data|], page.data, Listed(s, token.value, bound - 1));
          pageToken := token.value;
          bound := bound - 1;
        }
      } else {
        allCollected := true;
      }
    }
    ghost var n: nat :| Ends(s, "", n) && Everything(s) == Listed(s, "", n);
    BoundDoesNotMatter(s, "", start, n);
    return Ok(items);
  }

  // ---- When the walk ends ----

  ghost predicate NeverRepeats<T>(s: Server<T>) {
    forall i: nat, j: nat :: i < j && TokenAt(s, i).Some? && TokenAt(s, j).Some? ==> TokenAt(s, i) != TokenAt(s, j)
  }

  lemma {:induction false} EarlierTokens<T>(s: Server<T>, i: nat, j: nat)
    requires i <= j && TokenAt(s, j).Some?
    ensures TokenAt(s, i).Some?
    decreases j
  {
    if i < j { EarlierTokens(s, i, j - 1); }
  }

  lemma {:induction false} EndsWithoutToken<T>(s: Server<T>, k: nat, n: nat)
    requires TokenAt(s, k).Some? && Ends(s, TokenAt(s, k).value, n)
    ensures TokenAt(s, k + n) == None
    decreases n
  {
    if TokenAt(s, k + 1).Some? {
      EndsWithoutToken(s, k + 1, n - 1);
    } else if TokenAt(s, k + n).Some? {
      EarlierTokens(s, k + 1, k + n);
    }
  }

  lemma {:induction false} SameTokensFollow<T>(s: Server<T>, i: nat, j: nat, d: nat)
    requires TokenAt(s, i) == TokenAt(s, j)
    ensures TokenAt(s, i + d) == TokenAt(s, j + d)
  {
    if d > 0 { SameTokensFollow(s, i, j, d - 1); }
  }

  lemma {:induction false} RepeatingWalkGoesOn<T>(s: Server<T>, i: nat, j: nat, k: nat)
    requires i < j && TokenAt(s, j).Some? && TokenAt(s, i) == TokenAt(s, j)
    ensures TokenAt(s, k).Some?
    decreases k
  {
    if k <= j {
      EarlierTokens(s, k, j);
    } else {
      RepeatingWalkGoesOn(s, i, j, k - (j - i));
      SameTokensFollow(s, i, j, k - j);
    }
  }

  ghost function Asked<T>(s: Server<T>, k: nat): set<string> {
    set i | 0 <= i < k && TokenAt(s, i).Some? :: TokenAt(s, i).value
  }

  lemma {:induction false} AskedCount<T>(s: Server<T>, k: nat)
    requires NeverRepeats(s) && TokenAt(s, k).Some?
    ensures |Asked(s, k)| == k && Asked(s, k) <= s.pages.Keys
  {
    if k > 0 {
      EarlierTokens(s, k - 1, k);
      AskedCount(s, k - 1);
      assert Asked(s, k) == Asked(s, k - 1) + {TokenAt(s, k - 1).value};
    }
  }

  lemma SubsetIsSmaller<A>(a: set<A>, b: set<A>)
    requires a <= b
    ensures |a| <= |b|
  {
    if a != {} {
      var x :| x in a;
      SubsetIsSmaller(a - {x}, b - {x});
    }
  }

  lemma {:induction false} EndsBefore<T>(s: Server<T>, k: nat, n: nat)
    requires TokenAt(s, k).Some? && TokenAt(s, k + n) == None
    ensures Ends(s, TokenAt(s, k).value, n)
    decreases n
  {
    if TokenAt(s, k + 1).Some? {
      EndsBefore(s, k + 1, n - 1);
    }
  }

  /** The loop ends exactly when the server's links never lead back to a page. */
  lemma TerminatesUnlessLinksRepeat<T>(s: Server<T>)
    ensures Terminates(s) <==> NeverRepeats(s)
  {
    if Terminates(s) && !NeverRepeats(s) {
      var n: nat :| Ends(s, "", n);
      assert TokenAt(s, 0) == Some("");
      EndsWithoutToken(s, 0, n);
      var i: nat, j: nat :| i < j && TokenAt(s, i).Some? && TokenAt(s, j).Some? && TokenAt(s, i) == TokenAt(s, j);
      RepeatingWalkGoesOn(s, i, j, n);
    }
    if NeverRepeats(s) {
      var k := |s.pages| + 1;
      if TokenAt(s, k).Some? {
        AskedCount(s, k);
        SubsetIsSmaller(Asked(s, k), s.pages.Keys);
        assert false;
      }
      EndsBefore(s, 0, k);
    }
  }

  /** The k-th page asked for cannot be had, or has a link without a token. */
  ghost predicate BadRequest<T>(s: Server<T>, k: nat) {
    TokenAt(s, k).Some?
    && var t := TokenAt(s, k).value;
       t in s.pages ==> LinksOn(s.pages[t]) && s.tokenOf(s.pages[t].next.value) == None
  }

  lemma {:induction false} FailsFrom<T>(s: Server<T>, k: nat, n: nat)
    requires TokenAt(s, k).Some? && Ends(s, TokenAt(s, k).value, n)
    ensures Listed(s, TokenAt(s, k).value, n).Err? <==> exists m: nat :: m >= k && BadRequest(s, m)
    decreases n
  {
    if TokenAt(s, k + 1).Some? {
      FailsFrom(s, k + 1, n - 1);
      assert !BadRequest(s, k);
    } else {
      assert Listed(s, TokenAt(s, k).value, n).Err? <==> BadRequest(s, k);
      forall m: nat | m > k ensures !BadRequest(s, m)
      {
        if TokenAt(s, m).Some? { EarlierTokens(s, k + 1, m); }
      }
    }
  }

  /** A listing fails exactly when some page on the way cannot be had or links nowhere. */
  lemma FailsOnAnyBadPage<T>(s: Server<T>)
    requires Terminates(s)
    ensures Everything(s).Err? <==> exists k: nat :: BadRequest(s, k)
  {
    var n: nat :| Ends(s, "", n) && Everything(s) == Listed(s, "", n);
    assert TokenAt(s, 0) == Some("");
    FailsFrom(s, 0, n);
  }

  // ---- Any cutting into pages ----

  function Flatten<T>(parts: seq<seq<T>>): seq<T> {
    if parts == [] then [] else parts[0] + Flatten(parts[1..])
  }

  /** The server has these pieces of the listing on pages of these tokens, each linked to the next by
      a URL that holds its token, and the last linked to none. */
  ghost predicate Serves<T>(s: Server<T>, tokens: seq<string>, parts: seq<seq<T>>) {
    && 0 < |tokens| == |parts| && tokens[0] == ""
    && forall i :: 0 <= i < |tokens| ==> ServesPage(s, tokens, parts, i)
  }

  ghost predicate ServesPage<T>(s: Server<T>, tokens: seq<string>, parts: seq<seq<T>>, i: nat)
    requires i < |tokens| == |parts|
  {
    && tokens[i] in s.pages && s.pages[tokens[i]].data == parts[i]
    && var next := s.pages[tokens[i]].next;
       if i + 1 < |tokens| then next.Some? && next.value != "" && s.tokenOf(next.value) == Some(tokens[i + 1])
       else next == None || next == Some("")
  }

  lemma {:induction false} ServedFrom<T>(s: Server<T>, tokens: seq<string>, parts: seq<seq<T>>, i: nat)
    requires Serves(s, tokens, parts) && i < |parts|
    ensures Ends(s, tokens[i], |parts| - i)
    ensures Listed(s, tokens[i], |parts| - i) == Ok(Flatten(parts[i..]))
    decreases |parts| - i
  {
    assert ServesPage(s, tokens, parts, i);
    assert parts[i..][0] == parts[i] && parts[i..][1..] == parts[i + 1..];
    if i + 1 < |parts| {
      ServedFrom(s, tokens, parts, i + 1);
    } else {
      assert parts[i + 1..] == [];
      assert parts[i] + [] == parts[i];
    }
  }

  /** However a server cuts a listing into pages, the loop gives all of it, in order. */
  lemma PagesDoNotMatter<T>(s: Server<T>, tokens: seq<string>, parts: seq<seq<T>>)
    requires Serves(s, tokens, parts)
    ensures Terminates(s) && Everything(s) == Ok(Flatten(parts))
  {
    ServedFrom(s, tokens, parts, 0);
    assert Ends(s, "", |parts|);
    assert parts[0..] == parts;
    var n: nat :| Ends(s, "", n) && Everything(s) == Listed(s, "", n);
    BoundDoesNotMatter(s, "", |parts|, n);
  }

  lemma {:induction false} ListedIsServed<T>(s: Server<T>, token: string, n: nat)
    returns (tokens: seq<string>, parts: seq<seq<T>>)
    requires Ends(s, token, n) && Listed(s, token, n).Ok?
    ensures 0 < |tokens| == |parts| && tokens[0] == token
    ensures forall i :: 0 <= i < |tokens| ==> ServesPage(s, tokens, parts, i)
    ensures Listed(s, token, n) == Ok(Flatten(parts))
    decreases n
  {
    var page := s.pages[token];
    match NextOf(s, page)
    case Last =>
      tokens, parts := [token], [page.data];
      assert parts[1..] == [];
      assert page.data + [] == page.data;
    case More(t) =>
      var laterTokens, laterParts := ListedIsServed(s, t, n - 1);
      tokens, parts := [token] + laterTokens, [page.data] + laterParts;
      assert parts[1..] == laterParts;
      forall i | 0 <= i < |tokens| ensures ServesPage(s, tokens, parts, i)
      {
        if i > 0 { assert ServesPage(s, laterTokens, laterParts, i - 1); }
      }
  }

  /** And it gives nothing else: a listing without error is what some linked pages hold. */
  lemma ListingIsServed<T>(s: Server<T>)
    requires Terminates(s)
    ensures Everything(s).Ok? <==> exists tokens, parts :: Serves(s, tokens, parts)
    ensures forall tokens, parts :: Serves(s, tokens, parts) ==> Everything(s) == Ok(Flatten(parts))
  {
    var n: nat :| Ends(s, "", n) && Everything(s) == Listed(s, "", n);
    if Everything(s).Ok? {
      var tokens, parts := ListedIsServed(s, "", n);
      assert Serves(s, tokens, parts);
    }
    forall tokens, parts | Serves(s, tokens, parts) ensures Everything(s) == Ok(Flatten(parts))
    {
      PagesDoNotMatter(s, tokens, parts);
    }
  }

  // ---- Lookup by display name ----

  datatype Lookup<T> = Found(item: T) | NotFound | Ambiguous

  function Named<T>(items: seq<T>, nameOf: T -> string, name: string): seq<T> {
    if items == [] then []
    else (if nameOf(items[0]) == name then [items[0]] else []) + Named(items[1..], nameOf, name)
  }

  /** The one item of that name, when there is exactly one. */
  function TheNamed<T>(items: seq<T>, nameOf: T -> string, name: string): Lookup<T> {
    var matches := Named(items, nameOf, name);
    if |matches| == 0 then NotFound
    else if |matches| == 1 then Found(matches[0])
    else Ambiguous
  }

  lemma {:induction false} NamedAppend<T>(a: seq<T>, b: seq<T>, nameOf: T -> string, name: string)
    ensures Named(a + b, nameOf, name) == Named(a, nameOf, name) + Named(b, nameOf, name)
  {
    if a == [] {
      assert a + b == b;
    } else {
      assert (a + b)[1..] == a[1..] + b;
      NamedAppend(a[1..], b, nameOf, name);
      var first := if nameOf(a[0]) == name then [a[0]] else [];
      assert first + (Named(a[1..], nameOf, name) + Named(b, nameOf, name))
             == Named(a, nameOf, name) + Named(b, nameOf, name);
    }
  }

  method HasMultiple<T>(items: seq<T>, nameOf: T -> string, name: string) returns (multiple: bool)
    ensures multiple <==> |Named(items, nameOf, name)| > 1
  {
    var number := 0;
    for i := 0 to |items|
      invariant number == |Named(items[..i], nameOf, name)|
    {
      assert items[..i + 1] == items[..i] + [items[i]];
      NamedAppend(items[..i], [items[i]], nameOf, name);
      if nameOf(items[i]) == name {
        number := number + 1;
      }
    }
    assert items[..|items|] == items;
    return number > 1;
  }

  method FindByName<T>(items: seq<T>, nameOf: T -> string, name: string) returns (r: Lookup<T>)
    ensures r == TheNamed(items, nameOf, name)
  {
    var multiple := HasMultiple(items, nameOf, name);
    if multiple {
      return Ambiguous;
    }
    for i := 0 to |items|
      invariant Named(items[..i], nameOf, name) == []
    {
      assert items == items[..i] + ([items[i]] + items[i + 1..]);
      NamedAppend(items[..i], [items[i]] + items[i + 1..], nameOf, name);
      if nameOf(items[i]) == name {
        return Found(items[i]);
      }
      assert items[..i + 1] == items[..i] + [items[i]];
      NamedAppend(items[..i], [items[i]], nameOf, name);
    }
    assert items[..|items|] == items;
    return NotFound;
  }

  lemma WithoutOne<T>(a: seq<T>, front: seq<T>, x: T, back: seq<T>)
    requires multiset([x] + a) == multiset(front + ([x] + back))
    ensures multiset(a) == multiset(front + back)
  {
    assert multiset(a) == multiset([x] + a) - multiset{x};
    assert multiset(front + back) == multiset(front + ([x] + back)) - multiset{x};
  }

  lemma {:induction false} NamedPermute<T>(a: seq<T>, b: seq<T>, nameOf: T -> string, name: string)
    requires multiset(a) == multiset(b)
    ensures multiset(Named(a, nameOf, name)) == multiset(Named(b, nameOf, name))
  {
    if a == [] {
      assert |multiset(b)| == 0;
    } else {
      var x := a[0];
      assert a == [x] + a[1..];
      assert x in multiset(b);
      var i :| 0 <= i < |b| && b[i] == x;
      var front, back := b[..i], b[i + 1..];
      assert b == front + ([x] + back);
      WithoutOne(a[1..], front, x, back);
      NamedPermute(a[1..], front + back, nameOf, name);
      NamedAppend(front, back, nameOf, name);
      NamedAppend(front, [x] + back, nameOf, name);
      NamedAppend([x], back, nameOf, name);
      NamedAppend([x], a[1..], nameOf, name);
    }
  }

  /** The outcome of a lookup depends neither on the order of the listing nor on its pages. */
  lemma LookupIgnoresOrder<T>(a: seq<T>, b: seq<T>, nameOf: T -> string, name: string)
    requires multiset(a) == multiset(b)
    ensures TheNamed(a, nameOf, name) == TheNamed(b, nameOf, name)
  {
    NamedPermute(a, b, nameOf, name);
    var m, n := Named(a, nameOf, name), Named(b, nameOf, name);
    assert |m| == |multiset(m)| == |multiset(n)| == |n|;
    if |m| == 1 {
      assert m == [m[0]] && n == [n[0]];
      assert m[0] in multiset(m);
      assert m[0] in multiset(n);
    }
  }

  /** The lookup succeeds exactly when one place in the listing, and no other, bears the name. */
  lemma {:induction false} FoundWhenUnique<T>(items: seq<T>, nameOf: T -> string, name: string, i: nat)
    requires i < |items| && nameOf(items[i]) == name
    ensures TheNamed(items, nameOf, name) ==
            if exists j :: 0 <= j < |items| && j != i && nameOf(items[j]) == name then Ambiguous else Found(items[i])
  {
    var front, back := items[..i], items[i + 1..];
    assert items == front + ([items[i]] + back);
    NamedAppend(front, [items[i]] + back, nameOf, name);
    NamedAppend([items[i]], back, nameOf, name);
    NamedEmpty(front, nameOf, name);
    NamedEmpty(back, nameOf, name);
    if j :| 0 <= j < |items| && j != i && nameOf(items[j]) == name {
      if j < i { assert front[j] == items[j]; } else { assert back[j - i - 1] == items[j]; }
    }
  }

  lemma {:induction false} NamedEmpty<T>(items: seq<T>, nameOf: T -> string, name: string)
    ensures Named(items, nameOf, name) == [] <==> forall j :: 0 <= j < |items| ==> nameOf(items[j]) != name
  {
    if items != [] {
      NamedEmpty(items[1..], nameOf, name);
      assert forall j :: 0 < j < |items| ==> items[j] == items[1..][j - 1];
      assert forall j :: 0 <= j < |items[1..]| ==> items[1..][j] == items[j + 1];
    }
  }

  /** Nothing is found exactly when no place bears the name, and it is ambiguous exactly when two do. */
  lemma NotFoundOrAmbiguous<T>(items: seq<T>, nameOf: T -> string, name: string)
    ensures TheNamed(items, nameOf, name) == NotFound <==>
            forall i :: 0 <= i < |items| ==> nameOf(items[i]) != name
    ensures TheNamed(items, nameOf, name) == Ambiguous <==>
            exists i, j :: 0 <= i < j < |items| && nameOf(items[i]) == name == nameOf(items[j])
  {
    NamedEmpty(items, nameOf, name);
    if i :| 0 <= i < |items| && nameOf(items[i]) == name {
      FoundWhenUnique(items, nameOf, name, i);
    }
  }

  /** The data source: list, refuse duplicates, find. */
  method ReadByDisplayName<T>(s: Server<T>, nameOf: T -> string, name: string) returns (r: Result<Lookup<T>, ListError>)
    requires Terminates(s)
    ensures r == match Everything(s)
                 case Err(e) => Err(e)
                 case Ok(items) => Ok(TheNamed(items, nameOf, name))
  {
    var items := LoadAll(s);
    if items.Err? {
      return Err(items.error);
    }
    var found := FindByName(items.value, nameOf, name);
    return Ok(found);
  }

  /** Two servers that hold the same items, in whatever pages and order, answer a lookup alike. */
  lemma LookupIgnoresPages<T>(s: Server<T>, tokens: seq<string>, parts: seq<seq<T>>,
                              s': Server<T>, tokens': seq<string>, parts': seq<seq<T>>,
                              nameOf: T -> string, name: string)
    requires Serves(s, tokens, parts) && Serves(s', tokens', parts')
    requires multiset(Flatten(parts)) == multiset(Flatten(parts'))
    ensures Terminates(s) && Terminates(s')
    ensures Everything(s).Ok? && Everything(s').Ok?
    ensures TheNamed(Everything(s).value, nameOf, name) == TheNamed(Everything(s').value, nameOf, name)
  {
    PagesDoNotMatter(s, tokens, parts);
    PagesDoNotMatter(s', tokens', parts');
    LookupIgnoresOrder(Flatten(parts), Flatten(parts'), nameOf, name);
  }

  // ---- Environments and what each of them holds ----

  datatype Environment = Environment(id: string, displayName: string)

  ghost predicate Listable<T>(environments: Server<Environment>, held: string -> Server<T>) {
    Terminates(environments) && forall id :: Terminates(held(id))
  }
}
