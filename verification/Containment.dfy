/** JSON containment (cogs/catalog.py:443-470), the test a catalog filter makes of a card, as the in-memory store
    mirrors `jsonb @>`. */
module Containment {
  import opened Wrappers

  /** A number is its value: JSON's integers and floats compare numerically, and never equal a boolean. */
  datatype Json = Null | Bool(b: bool) | Num(n: real) | Str(s: string) | Arr(items: seq<Json>) | Obj(fields: map<string, Json>)

  predicate IsScalar(j: Json) {
    !j.Arr? && !j.Obj?
  }

  /** `json_contains`: at the top only, an array contains a bare scalar. */
  predicate Contains(document: Json, needle: Json, top: bool)
    decreases needle
  {
    match needle
    case Obj(fields) =>
      document.Obj? && forall k :: k in fields ==> k in document.fields && Contains(document.fields[k], fields[k], false)
    case Arr(items) =>
      document.Arr? && forall w :: w in items ==> exists item :: item in document.items && Contains(item, w, false)
    case _ =>
      if document.Arr? then top && exists item :: item in document.items && IsScalar(item) && item == needle
      else document == needle
  }

  /** Every document contains itself, at the top and below it. */
  lemma {:induction false} ContainsItself(j: Json, top: bool)
    ensures Contains(j, j, top)
    decreases j
  {
    match j
    case Obj(fields) =>
      forall k | k in fields ensures Contains(fields[k], fields[k], false) {
        ContainsItself(fields[k], false);
      }
    case Arr(items) =>
      forall w | w in items ensures Contains(w, w, false) {
        ContainsItself(w, false);
      }
    case _ =>
  }

  /** A document that contains a second contains whatever the second does, the rule at the top included. */
  lemma {:induction false} ContainsTransitively(a: Json, b: Json, c: Json, top: bool)
    requires Contains(a, b, top) && Contains(b, c, top)
    ensures Contains(a, c, top)
    decreases c
  {
    match c
    case Obj(fields) =>
      forall k | k in fields ensures k in a.fields && Contains(a.fields[k], fields[k], false) {
        ContainsTransitively(a.fields[k], b.fields[k], fields[k], false);
      }
    case Arr(items) =>
      forall w | w in items ensures exists item :: item in a.items && Contains(item, w, false) {
        var mid :| mid in b.items && Contains(mid, w, false);
        var item :| item in a.items && Contains(item, mid, false);
        ContainsTransitively(item, mid, w, false);
      }
    case _ =>
      if b.Arr? {
        var mid :| mid in b.items && IsScalar(mid) && mid == c;
        var item :| item in a.items && Contains(item, mid, false);
        assert item == c;
      }
  }

  /** An array asks for what it holds, in any order and any number of times, and no more. */
  lemma ArraysAskBySet(document: Json, a: seq<Json>, b: seq<Json>, top: bool)
    requires forall w :: w in a ==> w in b
    ensures Contains(document, Arr(b), top) ==> Contains(document, Arr(a), top)
    ensures document.Arr? && (forall w :: w in a ==> w in document.items) ==> Contains(document, Arr(a), top)
  {
    if document.Arr? && forall w :: w in a ==> w in document.items {
      forall w | w in a ensures exists item :: item in document.items && Contains(item, w, false) {
        ContainsItself(w, false);
      }
    }
  }

  // ---- The filters over a card ------------------------------------------------------------------

  /** The card filters of a `CatalogFilter`. */
  datatype CardFilter = CardFilter(providing: Option<string>, requiring: Option<string>, accepting: Option<string>, producing: Option<string>)

  const NO_FILTER := CardFilter(None, None, None, None)

  function One(part: Option<Json>, name: string): map<string, Json> {
    if part.Some? then map[name := part.value] else map[]
  }

  function Listing(text: Option<string>): Option<Json> {
    if text.Some? then Some(Arr([Str(text.value)])) else None
  }

  function Capability(text: Option<string>): Option<Json> {
    if text.Some? then Some(Arr([Obj(map["capability" := Str(text.value)])])) else None
  }

  function Io(f: CardFilter): map<string, Json> {
    One(Listing(f.accepting), "accepts") + One(Listing(f.producing), "produces")
  }

  function Fields(f: CardFilter): map<string, Json> {
    One(Listing(f.providing), "provides") + One(Capability(f.requiring), "requires")
    + One(if Io(f) != map[] then Some(Obj(Io(f))) else None, "io")
  }

  /** `containment`: the one document a card must contain, or none. */
  function Document(f: CardFilter): Option<Json> {
    if Fields(f) != map[] then Some(Obj(Fields(f))) else None
  }

  /** A card passes when no card filter is set, or it contains the document. */
  predicate Passes(card: Json, f: CardFilter) {
    Document(f).Some? ==> Contains(card, Document(f).value, true)
  }

  /** The field of a card, if it is an object that has it. */
  function Field(card: Json, name: string): Option<Json> {
    if card.Obj? && name in card.fields then Some(card.fields[name]) else None
  }

  predicate Lists(j: Option<Json>, text: string) {
    j.Some? && j.value.Arr? && Str(text) in j.value.items
  }

  predicate ListsCapability(j: Option<Json>, capability: string) {
    j.Some? && j.value.Arr? && exists item :: item in j.value.items && Field(item, "capability") == Some(Str(capability))
  }

  /** What each filter asks of a card, said of its fields. */
  predicate Asks(card: Json, f: CardFilter) {
    && (f.providing.Some? ==> Lists(Field(card, "provides"), f.providing.value))
    && (f.requiring.Some? ==> ListsCapability(Field(card, "requires"), f.requiring.value))
    && (f.accepting.Some? ==> Field(card, "io").Some? && Lists(Field(Field(card, "io").value, "accepts"), f.accepting.value))
    && (f.producing.Some? ==> Field(card, "io").Some? && Lists(Field(Field(card, "io").value, "produces"), f.producing.value))
  }

  lemma ContainsString(j: Json, text: string)
    ensures Contains(j, Arr([Str(text)]), false) <==> Lists(Some(j), text)
  {
    var needle := Arr([Str(text)]);
    assert needle.items[0] in needle.items;
    if Lists(Some(j), text) {
      assert Contains(Str(text), Str(text), false);
    }
    if Contains(j, needle, false) {
      var item :| item in j.items && Contains(item, Str(text), false);
      assert item == Str(text);
    }
  }

  lemma ContainsCapability(j: Json, capability: string)
    ensures Contains(j, Arr([Obj(map["capability" := Str(capability)])]), false) <==> ListsCapability(Some(j), capability)
  {
    var fields := map["capability" := Str(capability)];
    var needle := Arr([Obj(fields)]);
    assert needle.items[0] in needle.items;
    forall item: Json ensures Contains(item, Obj(fields), false) <==> Field(item, "capability") == Some(Str(capability)) {
      assert "capability" in fields;
      if Contains(item, Obj(fields), false) {
        assert Contains(item.fields["capability"], Str(capability), false);
      }
      if Field(item, "capability") == Some(Str(capability)) {
        assert Contains(Str(capability), Str(capability), false);
      }
    }
  }

  lemma IoFields(f: CardFilter)
    ensures forall k :: k in Io(f) <==> (k == "accepts" && f.accepting.Some?) || (k == "produces" && f.producing.Some?)
    ensures f.accepting.Some? ==> Io(f)["accepts"] == Arr([Str(f.accepting.value)])
    ensures f.producing.Some? ==> Io(f)["produces"] == Arr([Str(f.producing.value)])
    ensures Io(f) == map[] <==> f.accepting.None? && f.producing.None?
  {
    assert "accepts"[0] != "produces"[0];
    if f.accepting.Some? {
      assert "accepts" in Io(f);
    } else if f.producing.Some? {
      assert "produces" in Io(f);
    }
  }

  lemma DocumentFields(f: CardFilter)
    ensures forall k :: k in Fields(f) <==>
              || (k == "provides" && f.providing.Some?) || (k == "requires" && f.requiring.Some?)
              || (k == "io" && (f.accepting.Some? || f.producing.Some?))
    ensures f.providing.Some? ==> Fields(f)["provides"] == Arr([Str(f.providing.value)])
    ensures f.requiring.Some? ==> Fields(f)["requires"] == Arr([Obj(map["capability" := Str(f.requiring.value)])])
    ensures f.accepting.Some? || f.producing.Some? ==> Fields(f)["io"] == Obj(Io(f))
    ensures Fields(f) == map[] <==> f == NO_FILTER
  {
    IoFields(f);
    hide Io;
    assert "provides"[0] != "requires"[0] && "provides"[0] != "io"[0] && "requires"[0] != "io"[0];
    if f.providing.Some? {
      assert "provides" in Fields(f);
    } else if f.requiring.Some? {
      assert "requires" in Fields(f);
    } else if f.accepting.Some? || f.producing.Some? {
      assert "io" in Fields(f);
    }
  }

  lemma ContainsIo(j: Json, f: CardFilter)
    ensures Contains(j, Obj(Io(f)), false) <==>
              && (f.accepting.Some? ==> Lists(Field(j, "accepts"), f.accepting.value))
              && (f.producing.Some? ==> Lists(Field(j, "produces"), f.producing.value))
              && j.Obj?
  {
    IoFields(f);
    hide Io;
    forall k | k in Io(f) && j.Obj? && k in j.fields
      ensures Contains(j.fields[k], Io(f)[k], false)
          <==> Lists(Field(j, k), if k == "accepts" then f.accepting.value else f.producing.value)
    {
      ContainsString(j.fields[k], if k == "accepts" then f.accepting.value else f.producing.value);
    }
  }

  /** The combined document holds of a card exactly when each filter that is set holds of it on its own, and each
      asks what it is named for: no two filters interfere. */
  lemma CombinedIsEach(card: Json, f: CardFilter)
    ensures Passes(card, f) <==> Asks(card, f)
    ensures Passes(card, f) <==>
              && Passes(card, NO_FILTER.(providing := f.providing)) && Passes(card, NO_FILTER.(requiring := f.requiring))
              && Passes(card, NO_FILTER.(accepting := f.accepting)) && Passes(card, NO_FILTER.(producing := f.producing))
  {
    PassesIsAsks(card, f);
    PassesIsAsks(card, NO_FILTER.(providing := f.providing));
    PassesIsAsks(card, NO_FILTER.(requiring := f.requiring));
    PassesIsAsks(card, NO_FILTER.(accepting := f.accepting));
    PassesIsAsks(card, NO_FILTER.(producing := f.producing));
    hide Passes;
  }

  lemma PassesIsAsks(card: Json, f: CardFilter)
    ensures Passes(card, f) <==> Asks(card, f)
  {
    DocumentFields(f);
    hide Fields, Io;
    if Document(f).Some? {
      var d := Fields(f);
      if f.providing.Some? && Field(card, "provides").Some? {
        ContainsString(card.fields["provides"], f.providing.value);
      }
      if f.requiring.Some? && Field(card, "requires").Some? {
        ContainsCapability(card.fields["requires"], f.requiring.value);
      }
      if (f.accepting.Some? || f.producing.Some?) && Field(card, "io").Some? {
        ContainsIo(card.fields["io"], f);
      }
      assert Contains(card, Obj(d), true) <==>
             card.Obj? && forall k :: k in d ==> k in card.fields && Contains(card.fields[k], d[k], false);
    }
  }
}
