/** Stores of identified artifacts, derived ids, and the address forms the authority runtime accepts. */
module Artifacts {
  import opened Text
  import opened JsonValues
  import opened History

  /** A stored artifact: its id, and the rest of it. */
  datatype Item<+A> = Item(id: string, body: A)

  type Store<+A> = seq<Item<A>>

  /** `findIndex`, with the length of the store for "none". */
  function IndexOf<A>(store: Store<A>, id: string): (i: nat)
    ensures i <= |store|
    ensures i < |store| ==> store[i].id == id
    ensures forall j :: 0 <= j < i ==> store[j].id != id
  {
    if store == [] || store[0].id == id then 0 else 1 + IndexOf(store[1..], id)
  }

  function FindItem<A>(store: Store<A>, id: string): Option<A> {
    var i := IndexOf(store, id);
    if i < |store| then Some(store[i].body) else None
  }

  predicate Has<A>(store: Store<A>, id: string) {
    IndexOf(store, id) < |store|
  }

  function UpsertById<A>(store: Store<A>, artifact: Item<A>): Store<A> {
    var i := IndexOf(store, artifact.id);
    if i < |store| then store[i := artifact] else store + [artifact]
  }

  /** Every id of `before` is still there. */
  ghost predicate Kept<A>(before: Store<A>, after: Store<A>) {
    forall id :: Has(before, id) ==> Has(after, id)
  }

  lemma HasIffListed<A>(store: Store<A>, id: string)
    ensures Has(store, id) <==> exists i :: 0 <= i < |store| && store[i].id == id
  {
  }

  /** After an upsert the new artifact answers to its id, and every other id is answered as before. */
  lemma FindAfterUpsert<A>(store: Store<A>, artifact: Item<A>, id: string)
    ensures FindItem(UpsertById(store, artifact), id)
         == if id == artifact.id then Some(artifact.body) else FindItem(store, id)
  {
    var i, after := IndexOf(store, artifact.id), UpsertById(store, artifact);
    var was, now := IndexOf(store, id), IndexOf(after, id);
    if id == artifact.id {
      assert after[i] == artifact;
      assert now == i;
    } else {
      assert forall j :: 0 <= j < |store| && j != i ==> after[j] == store[j];
      if was < |store| {
        assert after[was].id == id;
        assert now == was;
      }
    }
  }

  lemma UpsertKeeps<A>(store: Store<A>, artifact: Item<A>)
    ensures Kept(store, UpsertById(store, artifact)) && Has(UpsertById(store, artifact), artifact.id)
  {
    forall id ensures Has(UpsertById(store, artifact), id) <==> Has(store, id) || id == artifact.id {
      FindAfterUpsert(store, artifact, id);
    }
  }

  /** Nothing but the given artifact is new in the store. */
  lemma UpsertAddsOnly<A>(store: Store<A>, artifact: Item<A>)
    ensures forall e :: e in UpsertById(store, artifact) ==> e == artifact || e in store
  {
  }

  /** What `Find` answers is the body of an entry of the store. */
  lemma FindIsItem<A>(store: Store<A>, id: string)
    requires FindItem(store, id).Some?
    ensures Item(id, FindItem(store, id).value) in store
  {
    var i := IndexOf(store, id);
    assert store[i] == Item(id, FindItem(store, id).value);
  }

  // ---- hashes and ids ----

  function HashObject(h: Hash, v: Json): (r: string)
    ensures r != ""
  {
    h(Encode(v))
  }

  function Cut(digest: string, length: nat): string {
    if |digest| <= length then digest else digest[..length]
  }

  function ArtifactId(h: Hash, prefix: string, v: Json, length: nat): (id: string)
    ensures id != ""
  {
    prefix + "_" + Cut(h(Encode(v)), length)
  }

  /** `given || derived` */
  function OrElse(given: string, derived: string): string {
    if given != "" then given else derived
  }

  /** `text || null` */
  function TextOrNone(text: string): Json {
    if text != "" then Str(text) else Null
  }

  function Strings(texts: seq<string>): Json {
    Arr(seq(|texts|, i requires 0 <= i < |texts| => Str(texts[i])))
  }

  /** The hash, cut to `length`, tells the given texts apart. */
  ghost predicate CutTellsApart(h: Hash, length: nat, texts: set<string>) {
    forall a, b :: a in texts && b in texts && Cut(h(a), length) == Cut(h(b), length) ==> a == b
  }

  lemma DerivedIdFixesText(h: Hash, prefix: string, a: Json, b: Json, length: nat, texts: set<string>)
    requires CutTellsApart(h, length, texts) && Encode(a) in texts && Encode(b) in texts
    requires ArtifactId(h, prefix, a, length) == ArtifactId(h, prefix, b, length)
    ensures Encode(a) == Encode(b)
  {
    var p := prefix + "_";
    var x, y := Cut(h(Encode(a)), length), Cut(h(Encode(b)), length);
    assert (p + x)[|p|..] == x && (p + y)[|p|..] == y;
  }

  // ---- addresses ----

  predicate AddressText(s: string, prefix: string, digits: nat) {
    |s| == |prefix| + digits && s[..|prefix|] == prefix
    && forall i :: |prefix| <= i < |s| ==> '0' <= s[i] <= '9' || 'a' <= s[i] <= 'f'
  }

  /** The normal form of an entity address, or the empty text. */
  function NormalizeEntity(address: string): string {
    var normalized := Lower(Trim(address));
    if AddressText(normalized, "sl1e_", 39) then normalized else ""
  }

  /** The normal form of a key address, or the empty text. */
  function NormalizeKey(address: string): string {
    var normalized := Lower(Trim(address));
    if AddressText(normalized, "sl1_", 40) then normalized else ""
  }
}
