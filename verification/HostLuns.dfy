/** internal/flasharray/client.go: HostLUNs, the array's word on what each LUN of a host carries.
    Two paged listings are joined by volume name, and one comparison of sizes decides whether the
    result may be trusted. */
module HostLuns {
  import opened Types

  const CHUNK: nat := 50

  datatype Conn = Conn(volume: string, lun: int)

  datatype Item = Item(name: string, serial: string)

  /** An answer to the n-th request for connections; None is any error. */
  datatype Page = Page(items: seq<Conn>, token: string, more: bool)

  /** Where reading stops: at an error, or a page without more or without a token to go on with. */
  predicate Last(p: Option<Page>) {
    p.None? || !p.value.more || p.value.token == ""
  }

  /** Everything on the pages up to where reading stops. */
  function Listed(pages: seq<Option<Page>>): Option<seq<Conn>>
    requires pages != [] && Last(pages[|pages| - 1])
  {
    if pages[0].None? then None
    else if Last(pages[0]) then Some(pages[0].value.items)
    else
      var rest := Listed(pages[1..]);
      if rest.None? then None else Some(pages[0].value.items + rest.value)
  }

  /** The LUN of each volume; a volume listed again takes its later LUN. */
  function LunOf(conns: seq<Conn>): map<string, int> {
    if conns == [] then map[]
    else
      var last := conns[|conns| - 1];
      LunOf(conns[..|conns| - 1])[last.volume := last.lun]
  }

  lemma {:induction false} LunOfConcat(a: seq<Conn>, b: seq<Conn>)
    ensures LunOf(a + b) == LunOf(a) + LunOf(b)
  {
    if b == [] {
      assert a + b == a;
    } else {
      var c := b[..|b| - 1];
      LunOfConcat(a, c);
      assert (a + b)[..|a + b| - 1] == a + c;
    }
  }

  /** Volumes with their LUN become LUNs with their serial. */
  function Join(lunOf: map<string, int>, items: seq<Item>): map<int, string> {
    if items == [] then map[]
    else
      var m, last := Join(lunOf, items[..|items| - 1]), items[|items| - 1];
      if last.name in lunOf then m[lunOf[last.name] := Lower(last.serial)] else m
  }

  predicate Injective(lunOf: map<string, int>) {
    forall u, v | u in lunOf && v in lunOf && lunOf[u] == lunOf[v] :: u == v
  }

  predicate Answered(items: seq<Item>, v: string) {
    exists i | 0 <= i < |items| :: items[i].name == v
  }

  /** The serial in v's last item. */
  function SerialOf(items: seq<Item>, v: string): string
    requires Answered(items, v)
  {
    var last := items[|items| - 1];
    if last.name == v then last.serial else SerialOf(items[..|items| - 1], v)
  }

  // Why the sizes decide ---------------------------------------------------------------------

  function Image(lunOf: map<string, int>, vs: set<string>): set<int>
    requires vs <= lunOf.Keys
  {
    set v | v in vs :: lunOf[v]
  }

  /** An image is no larger than what it is of, and as large exactly when nothing is merged. */
  lemma {:induction false} ImageSize(lunOf: map<string, int>, vs: set<string>)
    requires vs <= lunOf.Keys
    ensures |Image(lunOf, vs)| <= |vs|
    ensures |Image(lunOf, vs)| == |vs| <==> forall u, v | u in vs && v in vs && lunOf[u] == lunOf[v] :: u == v
  {
    if vs != {} {
      var x :| x in vs;
      var rest := vs - {x};
      ImageSize(lunOf, rest);
      if lunOf[x] in Image(lunOf, rest) {
        assert Image(lunOf, vs) == Image(lunOf, rest);
      } else {
        assert Image(lunOf, vs) == Image(lunOf, rest) + {lunOf[x]};
      }
    }
  }

  lemma {:induction false} JoinKeys(lunOf: map<string, int>, items: seq<Item>)
    ensures Join(lunOf, items).Keys == Image(lunOf, set v | v in lunOf && Answered(items, v))
  {
    var answered := set v | v in lunOf && Answered(items, v);
    if items != [] {
      var front, last := items[..|items| - 1], items[|items| - 1];
      JoinKeys(lunOf, front);
      forall v ensures Answered(items, v) <==> Answered(front, v) || v == last.name {
        if Answered(front, v) {
          var i :| 0 <= i < |front| && front[i].name == v;
          assert items[i].name == v;
        }
      }
      var before := set v | v in lunOf && Answered(front, v);
      assert answered == before + if last.name in lunOf then {last.name} else {};
      assert Image(lunOf, answered) == Image(lunOf, before) + if last.name in lunOf then {lunOf[last.name]} else {};
    }
  }

  lemma SubsetSize<T>(a: set<T>, b: set<T>)
    requires a <= b
    ensures |a| <= |b| && (|a| == |b| ==> a == b)
  {
    assert b == a + (b - a);
  }

  /** As many LUNs as volumes means: every volume was answered for, and no two share a LUN. */
  lemma SizesDecide(lunOf: map<string, int>, items: seq<Item>)
    ensures |Join(lunOf, items)| == |lunOf| <==> Injective(lunOf) && forall v | v in lunOf :: Answered(items, v)
  {
    var answered := set v | v in lunOf && Answered(items, v);
    JoinKeys(lunOf, items);
    ImageSize(lunOf, answered);
    SubsetSize(answered, lunOf.Keys);
    assert |Join(lunOf, items)| == |Join(lunOf, items).Keys| && |lunOf| == |lunOf.Keys|;
    if forall v | v in lunOf :: Answered(items, v) {
      assert answered == lunOf.Keys;
    }
  }

  /** Where no two volumes share a LUN, each LUN carries its own volume's serial. */
  lemma {:induction false} JoinIsOwn(lunOf: map<string, int>, items: seq<Item>, v: string)
    requires Injective(lunOf) && v in lunOf && Answered(items, v)
    ensures lunOf[v] in Join(lunOf, items) && Join(lunOf, items)[lunOf[v]] == Lower(SerialOf(items, v))
  {
    var front, last := items[..|items| - 1], items[|items| - 1];
    if last.name != v {
      var i :| 0 <= i < |items| && items[i].name == v;
      assert front[i].name == v;
      JoinIsOwn(lunOf, front, v);
    }
  }

  // The request ------------------------------------------------------------------------------

  /** Fifty names at a time, fewer only at the end, together exactly these, none twice. */
  ghost predicate Chunked(chunks: seq<seq<string>>, names: set<string>) {
    && (forall i | 0 <= i < |chunks| :: 0 < |chunks[i]| <= 50 && (i < |chunks| - 1 ==> |chunks[i]| == 50))
    && (forall v :: v in names <==> exists i | 0 <= i < |chunks| :: v in chunks[i])
    && (forall i, j, k, l | 0 <= i < |chunks| && 0 <= j < |chunks| && 0 <= k < |chunks[i]| && 0 <= l < |chunks[j]|
          && chunks[i][k] == chunks[j][l] :: i == j && k == l)
  }

  /** All that came back for these chunks, in order, if each was answered. */
  function Answers(volumes: seq<string> -> Option<seq<Item>>, chunks: seq<seq<string>>): Option<seq<Item>> {
    if chunks == [] then Some([])
    else
      var before, last := Answers(volumes, chunks[..|chunks| - 1]), volumes(chunks[|chunks| - 1]);
      if before.None? || last.None? then None else Some(before.value + last.value)
  }

  /** The result can be trusted: nothing failed, each volume was answered for and has a LUN of its own. */
  ghost predicate Sound(pages: seq<Option<Page>>, volumes: seq<string> -> Option<seq<Item>>, chunks: seq<seq<string>>)
    requires pages != [] && Last(pages[|pages| - 1])
  {
    && Listed(pages).Some? && Answers(volumes, chunks).Some?
    && var lunOf := LunOf(Listed(pages).value);
       Injective(lunOf) && forall v | v in lunOf :: Answered(Answers(volumes, chunks).value, v)
  }

  /** Exactly the LUNs of the volumes listed, each with its own volume's serial. */
  ghost predicate Delivers(pages: seq<Option<Page>>, volumes: seq<string> -> Option<seq<Item>>, chunks: seq<seq<string>>,
                           luns: map<int, string>)
    requires pages != [] && Last(pages[|pages| - 1]) && Sound(pages, volumes, chunks)
  {
    var lunOf, items := LunOf(Listed(pages).value), Answers(volumes, chunks).value;
    && luns.Keys == Image(lunOf, lunOf.Keys)
    && forall v | v in lunOf :: luns[lunOf[v]] == Lower(SerialOf(items, v))
  }

  method Connections(pages: seq<Option<Page>>) returns (lunOf: Option<map<string, int>>)
    requires pages != [] && Last(pages[|pages| - 1])
    ensures lunOf == if Listed(pages).Some? then Some(LunOf(Listed(pages).value)) else None
  {
    var m: map<string, int>, n := map[], 0;
    ghost var conns: seq<Conn> := [];
    ListedFrom(pages, 0, []);
    while true
      invariant n < |pages| && m == LunOf(conns)
      invariant Listed(pages) == After(conns, Listed(pages[n..]))
      decreases |pages| - n
    {
      var page := pages[n];
      if page.None? {
        return None;
      }
      m := Record(m, page.value.items);
      LunOfConcat(conns, page.value.items);
      ListedFrom(pages, n, conns);
      conns := conns + page.value.items;
      if !page.value.more || page.value.token == "" {
        return Some(m);
      }
      n := n + 1;
    }
  }

  function After(conns: seq<Conn>, rest: Option<seq<Conn>>): Option<seq<Conn>> {
    if rest.Some? then Some(conns + rest.value) else None
  }

  lemma ListedFrom(pages: seq<Option<Page>>, n: nat, conns: seq<Conn>)
    requires n < |pages| && Last(pages[|pages| - 1])
    ensures n == 0 ==> After([], Listed(pages[n..])) == Listed(pages)
    ensures After(conns, Listed(pages[n..])) ==
            if pages[n].None? then None
            else if Last(pages[n]) then Some(conns + pages[n].value.items)
            else After(conns + pages[n].value.items, Listed(pages[n + 1..]))
  {
    if n == 0 {
      assert pages[0..] == pages;
      assert Listed(pages).Some? ==> [] + Listed(pages).value == Listed(pages).value;
    }
    if !Last(pages[n]) {
      assert pages[n..][1..] == pages[n + 1..];
      if Listed(pages[n + 1..]).Some? {
        var items, rest := pages[n].value.items, Listed(pages[n + 1..]).value;
        assert conns + (items + rest) == conns + items + rest;
      }
    }
  }

  /** One page's items. */
  method Record(before: map<string, int>, items: seq<Conn>) returns (m: map<string, int>)
    ensures m == before + LunOf(items)
  {
    m := before;
    for i := 0 to |items|
      invariant m == before + LunOf(items[..i])
    {
      m := m[items[i].volume := items[i].lun];
      assert items[..i + 1][..i] == items[..i];
    }
    assert items[..|items|] == items;
  }

  /** The names in some order, at most CHUNK at a time. */
  method Chunks(names: set<string>) returns (chunks: seq<seq<string>>)
    ensures Chunked(chunks, names)
  {
    var left := names;
    chunks := [];
    while left != {}
      invariant left <= names && Chunked(chunks, names - left)
      invariant left != {} ==> forall i | 0 <= i < |chunks| :: |chunks[i]| == CHUNK
      decreases left
    {
      var chunk, rest := Chunk(left);
      MoreChunks(chunks, names - left, chunk);
      assert names - left + (set v | v in chunk) == names - rest;
      chunks, left := chunks + [chunk], rest;
    }
    assert names - left == names;
  }

  method Chunk(left: set<string>) returns (chunk: seq<string>, rest: set<string>)
    requires left != {}
    ensures 0 < |chunk| <= CHUNK && (rest != {} ==> |chunk| == CHUNK)
    ensures forall k, l | 0 <= k < l < |chunk| :: chunk[k] != chunk[l]
    ensures rest < left && rest == left - (set v | v in chunk) && (set v | v in chunk) <= left
  {
    chunk, rest := [], left;
    while rest != {} && |chunk| < CHUNK
      invariant |chunk| <= CHUNK && (chunk == [] ==> rest != {})
      invariant forall k, l | 0 <= k < l < |chunk| :: chunk[k] != chunk[l]
      invariant rest <= left && rest == left - (set v | v in chunk) && (set v | v in chunk) <= left
      decreases CHUNK - |chunk|
    {
      var v :| v in rest;
      chunk, rest := chunk + [v], rest - {v};
    }
    assert chunk[0] in left && chunk[0] !in rest;
  }

  lemma MoreChunks(chunks: seq<seq<string>>, names: set<string>, chunk: seq<string>)
    requires Chunked(chunks, names) && forall i | 0 <= i < |chunks| :: |chunks[i]| == CHUNK
    requires 0 < |chunk| <= CHUNK && names !! (set v | v in chunk)
    requires forall k, l | 0 <= k < l < |chunk| :: chunk[k] != chunk[l]
    ensures Chunked(chunks + [chunk], names + set v | v in chunk)
  {
    var more, all := chunks + [chunk], names + set v | v in chunk;
    forall v ensures v in all <==> exists i | 0 <= i < |more| :: v in more[i] {
      if v in names {
        var i :| 0 <= i < |chunks| && v in chunks[i];
        assert v in more[i];
      }
      if v in chunk {
        assert v in more[|chunks|];
      }
    }
    forall i, j, k, l | 0 <= i < |more| && 0 <= j < |more| && 0 <= k < |more[i]| && 0 <= l < |more[j]|
      && more[i][k] == more[j][l]
      ensures i == j && k == l
    {
      assert i < |chunks| ==> more[i][k] in chunks[i] && more[i][k] in names;
      assert j < |chunks| ==> more[j][l] in chunks[j] && more[j][l] in names;
      assert i == |chunks| ==> more[i][k] in chunk;
      assert j == |chunks| ==> more[j][l] in chunk;
    }
  }

  /** Client.HostLUNs. It answers exactly when the result can be trusted, and then with exactly the
      LUNs of the volumes listed, each with its own volume's serial. */
  method HostLUNs(pages: seq<Option<Page>>, volumes: seq<string> -> Option<seq<Item>>)
    returns (luns: Option<map<int, string>>, chunks: seq<seq<string>>)
    requires pages != [] && Last(pages[|pages| - 1])
    ensures Listed(pages).Some? ==> Chunked(chunks, LunOf(Listed(pages).value).Keys)
    ensures luns.Some? <==> Sound(pages, volumes, chunks)
    ensures luns.Some? ==> Delivers(pages, volumes, chunks, luns.value)
    ensures luns.Some? ==> forall l, i | l in luns.value && 0 <= i < |luns.value[l]| :: !('A' <= luns.value[l][i] <= 'Z')
  {
    chunks := [];
    var lunOf := Connections(pages);
    if lunOf.None? {
      return None, [];
    }
    chunks := Chunks(lunOf.value.Keys);
    var res: map<int, string> := map[];
    ghost var items: seq<Item> := [];
    for i := 0 to |chunks|
      invariant Answers(volumes, chunks[..i]) == Some(items) && res == Join(lunOf.value, items)
    {
      assert chunks[..i + 1][..i] == chunks[..i];
      var answer := volumes(chunks[i]);
      if answer.None? {
        NotAllAnswered(volumes, chunks, i);
        return None, chunks;
      }
      res := Fill(lunOf.value, res, items, answer.value);
      items := items + answer.value;
    }
    assert chunks[..|chunks|] == chunks;
    SizesDecide(lunOf.value, items);
    if |res| != |lunOf.value| {
      return None, chunks;
    }
    JoinDelivers(lunOf.value, items);
    return Some(res), chunks;
  }

  lemma JoinDelivers(lunOf: map<string, int>, items: seq<Item>)
    requires Injective(lunOf) && forall v | v in lunOf :: Answered(items, v)
    ensures var res := Join(lunOf, items);
            && res.Keys == Image(lunOf, lunOf.Keys)
            && (forall v | v in lunOf :: res[lunOf[v]] == Lower(SerialOf(items, v)))
            && forall l, i | l in res && 0 <= i < |res[l]| :: !('A' <= res[l][i] <= 'Z')
  {
    var res := Join(lunOf, items);
    JoinKeys(lunOf, items);
    assert (set v | v in lunOf && Answered(items, v)) == lunOf.Keys;
    forall v | v in lunOf ensures lunOf[v] in res && res[lunOf[v]] == Lower(SerialOf(items, v)) {
      JoinIsOwn(lunOf, items, v);
    }
    forall l | l in res ensures exists v | v in lunOf :: lunOf[v] == l && res[l] == Lower(SerialOf(items, v)) {
      assert l in Image(lunOf, lunOf.Keys);
    }
  }

  method Fill(lunOf: map<string, int>, before: map<int, string>, ghost items: seq<Item>, more: seq<Item>)
    returns (res: map<int, string>)
    requires before == Join(lunOf, items)
    ensures res == Join(lunOf, items + more)
  {
    res := before;
    assert items + more[..0] == items;
    for i := 0 to |more|
      invariant res == Join(lunOf, items + more[..i])
    {
      if more[i].name in lunOf {
        res := res[lunOf[more[i].name] := Lower(more[i].serial)];
      }
      assert (items + more[..i + 1])[..|items| + i] == items + more[..i];
    }
    assert more[..|more|] == more;
  }

  lemma {:induction false} NotAllAnswered(volumes: seq<string> -> Option<seq<Item>>, chunks: seq<seq<string>>, n: nat)
    requires n < |chunks| && volumes(chunks[n]).None?
    ensures Answers(volumes, chunks).None?
  {
    if n < |chunks| - 1 {
      NotAllAnswered(volumes, chunks[..|chunks| - 1], n);
    }
  }

  // Against what the array really maps -------------------------------------------------------

  /** The page reading stops at. */
  function LastRead(pages: seq<Option<Page>>): (n: nat)
    requires pages != [] && Last(pages[|pages| - 1])
    ensures n < |pages| && Last(pages[n]) && forall i | 0 <= i < n :: !Last(pages[i])
  {
    if Last(pages[0]) then 0 else LastRead(pages[1..]) + 1
  }

  /** Exactly what is on the pages up to there is read: nothing more, and what follows a page that has
      more but no token is not. */
  lemma {:induction false} ReadIff(pages: seq<Option<Page>>, c: Conn)
    requires pages != [] && Last(pages[|pages| - 1]) && Listed(pages).Some?
    ensures c in Listed(pages).value <==>
            exists n | 0 <= n <= LastRead(pages) :: pages[n].Some? && c in pages[n].value.items
  {
    if !Last(pages[0]) {
      ReadIff(pages[1..], c);
      if n :| 0 <= n <= LastRead(pages) && pages[n].Some? && c in pages[n].value.items {
        assert n > 0 ==> pages[1..][n - 1].Some? && c in pages[1..][n - 1].value.items;
      }
      if n :| 0 <= n <= LastRead(pages[1..]) && pages[1..][n].Some? && c in pages[1..][n].value.items {
        assert pages[n + 1].Some? && c in pages[n + 1].value.items;
      }
    }
  }

  lemma {:induction false} LunOfIsListed(conns: seq<Conn>, v: string)
    ensures v in LunOf(conns) ==> Conn(v, LunOf(conns)[v]) in conns
    ensures (exists l :: Conn(v, l) in conns) ==> v in LunOf(conns)
  {
    if conns != [] {
      LunOfIsListed(conns[..|conns| - 1], v);
      assert conns == conns[..|conns| - 1] + [conns[|conns| - 1]];
    }
  }

  lemma {:induction false} AnswersComeFromChunks(volumes: seq<string> -> Option<seq<Item>>, chunks: seq<seq<string>>, v: string)
    returns (chunk: seq<string>)
    requires Answers(volumes, chunks).Some? && Answered(Answers(volumes, chunks).value, v)
    ensures chunk in chunks && volumes(chunk).Some? && Item(v, SerialOf(Answers(volumes, chunks).value, v)) in volumes(chunk).value
  {
    var before, last := Answers(volumes, chunks[..|chunks| - 1]), volumes(chunks[|chunks| - 1]);
    var items := Answers(volumes, chunks).value;
    SerialOfConcat(before.value, last.value, v);
    if Answered(last.value, v) {
      SerialOfIsThere(last.value, v);
      return chunks[|chunks| - 1];
    }
    chunk := AnswersComeFromChunks(volumes, chunks[..|chunks| - 1], v);
  }

  lemma {:induction false} SerialOfIsThere(items: seq<Item>, v: string)
    requires Answered(items, v)
    ensures Item(v, SerialOf(items, v)) in items
  {
    var last := items[|items| - 1];
    if last.name != v {
      var i :| 0 <= i < |items| && items[i].name == v;
      assert items[..|items| - 1][i].name == v;
      SerialOfIsThere(items[..|items| - 1], v);
    }
  }

  lemma {:induction false} SerialOfConcat(a: seq<Item>, b: seq<Item>, v: string)
    requires Answered(a + b, v)
    ensures Answered(b, v) || Answered(a, v)
    ensures SerialOf(a + b, v) == if Answered(b, v) then SerialOf(b, v) else SerialOf(a, v)
  {
    if b == [] {
      assert a + b == a;
    } else {
      var c := b[..|b| - 1];
      assert (a + b)[..|a + b| - 1] == a + c;
      if b[|b| - 1].name != v {
        var i :| 0 <= i < |a + b| && (a + b)[i].name == v;
        assert (a + c)[i].name == v;
        SerialOfConcat(a, c, v);
        assert Answered(c, v) <==> Answered(b, v) by {
          if Answered(b, v) {
            var k :| 0 <= k < |b| && b[k].name == v;
            assert c[k].name == v;
          }
          if Answered(c, v) {
            var k :| 0 <= k < |c| && c[k].name == v;
            assert b[k].name == v;
          }
        }
      }
    }
  }

  /** No volume is listed at two LUNs. */
  ghost predicate OneLunEach(conns: set<Conn>) {
    forall c, d | c in conns && d in conns && c.volume == d.volume :: c.lun == d.lun
  }

  /** The pages show what the array maps, all of it, and say when there is more. */
  ghost predicate HonestPages(pages: seq<Option<Page>>, connected: set<Conn>) {
    && (forall i, c | 0 <= i < |pages| && pages[i].Some? && c in pages[i].value.items :: c in connected)
    && (forall c | c in connected :: exists i | 0 <= i < |pages| :: pages[i].Some? && c in pages[i].value.items)
    && (forall i | 0 <= i < |pages| - 1 :: !Last(pages[i]))
  }

  ghost predicate HonestVolumes(volumes: seq<string> -> Option<seq<Item>>, serials: map<string, string>) {
    forall chunk: seq<string>, item | volumes(chunk).Some? && item in volumes(chunk).value ::
      item.name in serials && serials[item.name] == Lower(item.serial)
  }

  /** The answer has c's LUN, and there c's own volume. */
  ghost predicate Kept(luns: map<int, string>, items: seq<Item>, c: Conn) {
    Answered(items, c.volume) && c.lun in luns && luns[c.lun] == Lower(SerialOf(items, c.volume))
  }

  function AllOf(conns: seq<Conn>): set<Conn> {
    set c | c in conns
  }

  /** Every listed connection is kept in an answer without error if no volume is listed at two LUNs,
      and, as long as volumes have serials of their own, only then. */
  lemma EveryConnectionKeptIff(pages: seq<Option<Page>>, volumes: seq<string> -> Option<seq<Item>>,
                               chunks: seq<seq<string>>, luns: map<int, string>)
    requires pages != [] && Last(pages[|pages| - 1]) && Sound(pages, volumes, chunks)
    requires Delivers(pages, volumes, chunks, luns)
    ensures var conns, items := Listed(pages).value, Answers(volumes, chunks).value;
            && (OneLunEach(AllOf(conns)) ==> forall c | c in conns :: Kept(luns, items, c))
            && (OwnSerials(LunOf(conns), items) && (forall c | c in conns :: Kept(luns, items, c)) ==> OneLunEach(AllOf(conns)))
  {
    var conns, items := Listed(pages).value, Answers(volumes, chunks).value;
    var lunOf := LunOf(conns);
    forall c | c in conns ensures c.volume in lunOf && Conn(c.volume, lunOf[c.volume]) in AllOf(conns) {
      LunOfIsListed(conns, c.volume);
    }
    if OneLunEach(AllOf(conns)) {
      forall c | c in conns ensures Kept(luns, items, c) {
        assert c in AllOf(conns) && c.lun == lunOf[c.volume];
        assert c.lun in Image(lunOf, lunOf.Keys);
      }
    }
    if OwnSerials(lunOf, items) && forall c | c in conns :: Kept(luns, items, c) {
      forall c | c in conns ensures c.lun == lunOf[c.volume] {
        assert Kept(luns, items, c) && c.lun in Image(lunOf, lunOf.Keys);
        var v :| v in lunOf && lunOf[v] == c.lun;
        assert Lower(SerialOf(items, v)) == Lower(SerialOf(items, c.volume));
      }
    }
  }

  ghost predicate OwnSerials(lunOf: map<string, int>, items: seq<Item>)
    requires forall v | v in lunOf :: Answered(items, v)
  {
    forall u, v | u in lunOf && v in lunOf && Lower(SerialOf(items, u)) == Lower(SerialOf(items, v)) :: u == v
  }

  /** A volume that reconnects while the pages are read is listed at both LUNs; the answer, without
      error, has the later one only. */
  lemma EarlierLunIsLost(v: string, serial: string)
    ensures var pages := [Some(Page([Conn(v, 1)], "next", true)), Some(Page([Conn(v, 2)], "", false))];
            var volumes := (names: seq<string>) => Some([Item(v, serial)]);
            && Last(pages[1]) && Sound(pages, volumes, [[v]]) && Delivers(pages, volumes, [[v]], map[2 := Lower(serial)])
            && Conn(v, 1) in Listed(pages).value && 1 !in map[2 := Lower(serial)]
  {
    var pages := [Some(Page([Conn(v, 1)], "next", true)), Some(Page([Conn(v, 2)], "", false))];
    var conns := [Conn(v, 1), Conn(v, 2)];
    assert Listed(pages[1..]) == Some([Conn(v, 2)]);
    assert Listed(pages) == Some([Conn(v, 1)] + [Conn(v, 2)]) && [Conn(v, 1)] + [Conn(v, 2)] == conns;
    assert conns[..1] == [Conn(v, 1)] && conns[..1][..0] == [];
    assert LunOf(conns[..1]) == map[v := 1];
    assert LunOf(conns) == map[v := 1][v := 2] == map[v := 2];
    assert LunOf(conns).Keys == {v};
    OneAnswer(v, serial);
    assert Image(map[v := 2], {v}) == {2};
  }

  lemma OneAnswer(v: string, serial: string)
    ensures var volumes := (names: seq<string>) => Some([Item(v, serial)]);
            Answers(volumes, [[v]]) == Some([Item(v, serial)])
    ensures Answered([Item(v, serial)], v) && SerialOf([Item(v, serial)], v) == serial
  {
    var chunks := [[v]];
    assert chunks[..0] == [] && [] + [Item(v, serial)] == [Item(v, serial)];
    assert [Item(v, serial)][0].name == v;
  }

  /** An array that answers honestly is believed exactly: each LUN in an answer without error is a
      connection of the volume whose serial it has, no LUN is shared, and every connection is there
      if no volume has two. */
  lemma AnswersTheTruth(pages: seq<Option<Page>>, volumes: seq<string> -> Option<seq<Item>>, chunks: seq<seq<string>>,
                        luns: map<int, string>, connected: set<Conn>, serials: map<string, string>)
    requires pages != [] && Last(pages[|pages| - 1]) && Sound(pages, volumes, chunks)
    requires Delivers(pages, volumes, chunks, luns)
    requires HonestPages(pages, connected) && HonestVolumes(volumes, serials)
    ensures connected == AllOf(Listed(pages).value)
    ensures forall l | l in luns :: exists c | c in connected :: c.lun == l && c.volume in serials && luns[l] == serials[c.volume]
    ensures OneLunEach(connected) ==>
      forall c | c in connected :: c.lun in luns && c.volume in serials && luns[c.lun] == serials[c.volume]
    ensures OneLunEach(connected) ==> forall c, d | c in connected && d in connected && c.lun == d.lun :: c.volume == d.volume
  {
    HonestlyRead(pages, connected);
    HonestlyNamed(pages, volumes, chunks, luns, serials);
    var lunOf := LunOf(Listed(pages).value);
    forall v ensures v in lunOf ==> Conn(v, lunOf[v]) in connected {
      LunOfIsListed(Listed(pages).value, v);
    }
    forall c | c in connected ensures c.volume in lunOf {
      LunOfIsListed(Listed(pages).value, c.volume);
    }
    LunsAreConnections(lunOf, luns, connected, serials);
  }

  lemma HonestlyRead(pages: seq<Option<Page>>, connected: set<Conn>)
    requires pages != [] && Last(pages[|pages| - 1]) && Listed(pages).Some? && HonestPages(pages, connected)
    ensures connected == AllOf(Listed(pages).value)
  {
    forall c ensures c in connected <==> c in Listed(pages).value {
      ReadIff(pages, c);
    }
  }

  lemma HonestlyNamed(pages: seq<Option<Page>>, volumes: seq<string> -> Option<seq<Item>>, chunks: seq<seq<string>>,
                      luns: map<int, string>, serials: map<string, string>)
    requires pages != [] && Last(pages[|pages| - 1]) && Sound(pages, volumes, chunks)
    requires Delivers(pages, volumes, chunks, luns) && HonestVolumes(volumes, serials)
    ensures var lunOf := LunOf(Listed(pages).value);
            forall v | v in lunOf :: v in serials && lunOf[v] in luns && luns[lunOf[v]] == serials[v]
  {
    var lunOf := LunOf(Listed(pages).value);
    forall v | v in lunOf ensures v in serials && luns[lunOf[v]] == serials[v] {
      var chunk := AnswersComeFromChunks(volumes, chunks, v);
    }
  }

  lemma LunsAreConnections(lunOf: map<string, int>, luns: map<int, string>, connected: set<Conn>, serials: map<string, string>)
    requires Injective(lunOf) && luns.Keys == Image(lunOf, lunOf.Keys)
    requires forall v | v in lunOf :: Conn(v, lunOf[v]) in connected && v in serials && luns[lunOf[v]] == serials[v]
    requires forall c | c in connected :: c.volume in lunOf
    ensures forall l | l in luns :: exists c | c in connected :: c.lun == l && c.volume in serials && luns[l] == serials[c.volume]
    ensures OneLunEach(connected) ==>
      forall c | c in connected :: c.lun in luns && c.volume in serials && luns[c.lun] == serials[c.volume]
    ensures OneLunEach(connected) ==> forall c, d | c in connected && d in connected && c.lun == d.lun :: c.volume == d.volume
  {
    forall l | l in luns
      ensures exists c | c in connected :: c.lun == l && c.volume in serials && luns[l] == serials[c.volume]
    {
      var v :| v in lunOf && lunOf[v] == l;
      assert Conn(v, l) in connected;
    }
    forall c | OneLunEach(connected) && c in connected ensures c.lun == lunOf[c.volume] && c.lun in luns {
      assert Conn(c.volume, lunOf[c.volume]) in connected;
    }
  }

  /** A page that has more but no token to go on with ends the reading all the same: what follows is
      left out of an answer without error. */
  lemma MoreWithoutTokenIsMissed(v: string, w: string)
    requires v != w
    ensures var pages := [Some(Page([Conn(v, 1)], "", true)), Some(Page([Conn(w, 2)], "", false))];
            && Last(pages[1]) && Listed(pages) == Some([Conn(v, 1)])
  {
  }

  /** A serial may still be missing: one that comes back empty counts. The answer holds an empty
      serial exactly when some listed volume's item does. */
  lemma EmptySerials(pages: seq<Option<Page>>, volumes: seq<string> -> Option<seq<Item>>, chunks: seq<seq<string>>,
                     luns: map<int, string>)
    requires pages != [] && Last(pages[|pages| - 1]) && Sound(pages, volumes, chunks)
    requires Delivers(pages, volumes, chunks, luns)
    ensures "" in luns.Values <==> "" in Serials(LunOf(Listed(pages).value), Answers(volumes, chunks).value).Values
  {
    var lunOf := LunOf(Listed(pages).value);
    EmptyOnes(lunOf, Serials(lunOf, Answers(volumes, chunks).value), luns);
  }

  function Serials(lunOf: map<string, int>, items: seq<Item>): map<string, string>
    requires forall v | v in lunOf :: Answered(items, v)
  {
    map v | v in lunOf :: SerialOf(items, v)
  }

  lemma EmptyOnes(lunOf: map<string, int>, serials: map<string, string>, luns: map<int, string>)
    requires serials.Keys == lunOf.Keys && luns.Keys == Image(lunOf, lunOf.Keys)
    requires forall v | v in lunOf :: luns[lunOf[v]] == Lower(serials[v])
    ensures "" in luns.Values <==> "" in serials.Values
  {
  }

  lemma EmptySerialIsAccepted(v: string)
    ensures var pages := [Some(Page([Conn(v, 1)], "", false))];
            var volumes := (names: seq<string>) => Some([Item(v, "")]);
            Sound(pages, volumes, [[v]]) && Delivers(pages, volumes, [[v]], map[1 := ""])
  {
    var pages := [Some(Page([Conn(v, 1)], "", false))];
    var volumes := (names: seq<string>) => Some([Item(v, "")]);
    var conns := [Conn(v, 1)];
    assert conns[..0] == [];
    assert LunOf(conns) == map[v := 1];
    OneAnswer(v, "");
    assert Lower("") == "";
    assert Image(map[v := 1], {v}) == {1};
  }
}
