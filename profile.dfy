/** The publication list of the profile card (src/components/profile/GetProfile.jsx):
    each publication is normalised through `??` fallback chains for its author,
    then a copy of the list is sorted newest first and rendered with defaults. */
module Profile {
  import opened Wrappers
  import opened JsonValues

  const UnknownAuthor: string := "desconocido"

  /** A publication as the backend sends it. Every property may be missing
      (`None`) or null; `user` is a nested object when present. `createDate`
      is an integer timestamp. */
  datatype Publication = Publication(
    id: Option<Json>,
    text: Option<Json>,
    createDate: int,
    user: Option<Json>,
    userId: Option<Json>,
    authorId: Option<Json>,
    username: Option<Json>,
    authorName: Option<Json>)

  /** A normalised publication. `authorId` is never undefined (the chain ends
      in `?? null`); `authorName` is undefined only if the final fallback is. */
  datatype Entry = Entry(id: Option<Json>, authorId: Json, authorName: Option<Json>, text: Option<Json>, createDate: int)

  /** The props one `GetPublication` card receives. */
  datatype Card = Card(id: Option<Json>, authorId: Json, authorName: Json, text: Option<Json>, createDate: int)

  /** Reference definition of a `??` chain: the first candidate that is
      neither null nor undefined, else `last`. */
  function FirstNonNullish(xs: seq<Option<Json>>, last: Option<Json>): (r: Option<Json>)
    ensures forall i :: 0 <= i < |xs| && !Nullish(xs[i]) && (forall j :: 0 <= j < i ==> Nullish(xs[j])) ==> r == xs[i]
    ensures (forall i :: 0 <= i < |xs| ==> Nullish(xs[i])) ==> r == last
  {
    if xs == [] then last
    else if !Nullish(xs[0]) then xs[0]
    else FirstNonNullish(xs[1..], last)
  }

  /** A three-link `??` chain picks the first non-nullish link. */
  lemma {:induction false} ChainOfThree(a: Option<Json>, b: Option<Json>, c: Option<Json>, last: Option<Json>)
    ensures Coalesce(Coalesce(Coalesce(a, b), c), last) == FirstNonNullish([a, b, c], last)
  {
    assert [a, b, c][1..] == [b, c];
    assert [b, c][1..] == [c];
    assert [c][1..] == [];
    assert FirstNonNullish([c], last) == if !Nullish(c) then c else last;
    assert FirstNonNullish([b, c], last) == if !Nullish(b) then b else FirstNonNullish([c], last);
  }

  /** The candidates for the author id, in the order the chain tries them. */
  function IdCandidates(pub: Publication): seq<Option<Json>> {
    [GetOpt(pub.user, "id"), pub.userId, pub.authorId]
  }

  /** The candidates for the author name, in the order the chain tries them. */
  function NameCandidates(pub: Publication): seq<Option<Json>> {
    [GetOpt(pub.user, "username"), pub.username, pub.authorName]
  }

  /** One step of the `map` in GetProfile, with the chain's last fallback for
      the author name as a parameter: GetProfile passes the profile's
      username, the timeline pages pass `'desconocido'`. `id`, `text` and
      `createDate` are copied; the author id and name are the first
      non-nullish candidates, so 0 and "" are kept. */
  function Normalize(pub: Publication, lastName: Option<Json>): (e: Entry)
    ensures e.id == pub.id && e.text == pub.text && e.createDate == pub.createDate
    ensures Some(e.authorId) == FirstNonNullish(IdCandidates(pub), Some(JNull))
    ensures e.authorName == FirstNonNullish(NameCandidates(pub), lastName)
  {
    ChainOfThree(GetOpt(pub.user, "id"), pub.userId, pub.authorId, Some(JNull));
    ChainOfThree(GetOpt(pub.user, "username"), pub.username, pub.authorName, lastName);
    var authorId := Coalesce(Coalesce(Coalesce(GetOpt(pub.user, "id"), pub.userId), pub.authorId), Some(JNull));
    var authorName := Coalesce(Coalesce(Coalesce(GetOpt(pub.user, "username"), pub.username), pub.authorName), lastName);
    Entry(pub.id, authorId.value, authorName, pub.text, pub.createDate)
  }

  /** `normalizedPublications`: one entry per publication, in order; a null or
      undefined list counts as empty. */
  function NormalizeAll(publications: Option<seq<Publication>>, username: Option<Json>): (es: seq<Entry>)
    ensures publications.None? ==> es == []
    ensures publications.Some? ==> |es| == |publications.value|
    ensures publications.Some? ==> forall i :: 0 <= i < |es| ==> es[i] == Normalize(publications.value[i], username)
  {
    var ps := publications.GetOr([]);
    seq(|ps|, i requires 0 <= i < |ps| => Normalize(ps[i], username))
  }

  ghost predicate NewestFirst(es: seq<Entry>) {
    forall i, j :: 0 <= i < j < |es| ==> es[i].createDate >= es[j].createDate
  }

  /** Inserts `e` into a list already sorted newest first, ahead of every
      entry that is not newer than it. */
  function Insert(e: Entry, sorted: seq<Entry>): (r: seq<Entry>)
    requires NewestFirst(sorted)
    ensures NewestFirst(r)
    ensures multiset(r) == multiset(sorted) + multiset{e}
    ensures |r| == |sorted| + 1
    ensures r[0] == e || (sorted != [] && r[0] == sorted[0])
  {
    if sorted == [] || e.createDate >= sorted[0].createDate then
      [e] + sorted
    else
      var rest := Insert(e, sorted[1..]);
      assert sorted == [sorted[0]] + sorted[1..];
      [sorted[0]] + rest
  }

  /** `sortedPublications`: a new list holding the same entries, newest first;
      the input list is a value and is left as it was. Entries with the same
      date keep their relative order, as JavaScript's stable sort does. */
  function SortNewestFirst(es: seq<Entry>): (r: seq<Entry>)
    ensures NewestFirst(r)
    ensures multiset(r) == multiset(es)
    ensures |r| == |es|
  {
    if es == [] then []
    else
      assert es == [es[0]] + es[1..];
      Insert(es[0], SortNewestFirst(es[1..]))
  }

  /** The defaults applied when the card is rendered: a null author id shows
      as 0 and a nullish author name as `'desconocido'`. */
  function Render(e: Entry): (c: Card)
    ensures c.id == e.id && c.text == e.text && c.createDate == e.createDate
    ensures c.authorId == if e.authorId.JNull? then JNum(0) else e.authorId
    ensures c.authorName == if Nullish(e.authorName) then JStr(UnknownAuthor) else e.authorName.value
  {
    Card(e.id, if e.authorId.JNull? then JNum(0) else e.authorId,
         if Nullish(e.authorName) then JStr(UnknownAuthor) else e.authorName.value,
         e.text, e.createDate)
  }

  /** Each entry rendered, in order. */
  function RenderAll(es: seq<Entry>): (cards: seq<Card>)
    ensures |cards| == |es|
    ensures forall i :: 0 <= i < |es| ==> cards[i] == Render(es[i])
  {
    seq(|es|, i requires 0 <= i < |es| => Render(es[i]))
  }

  /** Rendering distributes over concatenation. */
  lemma RenderAllAppend(a: seq<Entry>, b: seq<Entry>)
    ensures RenderAll(a + b) == RenderAll(a) + RenderAll(b)
  {
  }

  /** Rendering a reordering of a list gives a reordering of its cards. */
  lemma {:induction false} RenderPermutation(a: seq<Entry>, b: seq<Entry>)
    requires multiset(a) == multiset(b)
    ensures multiset(RenderAll(a)) == multiset(RenderAll(b))
    decreases |a|
  {
    if a == [] {
      assert |multiset(b)| == 0;
      assert b == [];
    } else {
      var x := a[0];
      assert x in multiset(b);
      var k :| 0 <= k < |b| && b[k] == x;
      var rest := b[..k] + b[k + 1..];
      assert a == [x] + a[1..];
      assert b == b[..k] + [x] + b[k + 1..];
      forall y
        ensures multiset(a[1..])[y] == multiset(rest)[y]
      {
        assert multiset(a)[y] == multiset([x])[y] + multiset(a[1..])[y];
        assert multiset(b)[y] == multiset(b[..k])[y] + multiset([x])[y] + multiset(b[k + 1..])[y];
        assert multiset(rest)[y] == multiset(b[..k])[y] + multiset(b[k + 1..])[y];
      }
      assert multiset(a[1..]) == multiset(rest);
      RenderPermutation(a[1..], rest);
      RenderAllAppend([x], a[1..]);
      RenderAllAppend(b[..k] + [x], b[k + 1..]);
      RenderAllAppend(b[..k], [x]);
      RenderAllAppend(b[..k], b[k + 1..]);
    }
  }

  /** The cards of the profile's publication list: each publication
      normalised and rendered, one card per publication, newest first. */
  function ProfileCards(publications: Option<seq<Publication>>, username: Option<Json>): (cards: seq<Card>)
    ensures |cards| == |publications.GetOr([])|
    ensures multiset(cards) == multiset(RenderAll(NormalizeAll(publications, username)))
    ensures forall i, j :: 0 <= i < j < |cards| ==> cards[i].createDate >= cards[j].createDate
  {
    var entries := NormalizeAll(publications, username);
    var sorted := SortNewestFirst(entries);
    RenderPermutation(sorted, entries);
    RenderAll(sorted)
  }

  /** A profile without a username renders every publication exactly as the
      timeline pages do, whose chain ends in `'desconocido'` instead; and the
      pages' chain never leaves the name nullish. */
  lemma ProfileAgreesWithPages(pub: Publication)
    ensures Render(Normalize(pub, None)) == Render(Normalize(pub, Some(JStr(UnknownAuthor))))
    ensures !Nullish(Normalize(pub, Some(JStr(UnknownAuthor))).authorName)
  {
  }
}
