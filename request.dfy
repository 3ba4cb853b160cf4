/**
 * Identifier types, the deck reference union, and the (URL, body) pair each
 * client method assembles (src/request.rs). Bodies are built as `Json`
 * values following serde's conventions: a newtype struct serialises as its
 * inner value, a tuple as an array, a struct as an object.
 */
module Request {
  import opened Common
  import opened Json
  import Errors
  import Client

  /** A reference to any deck: a user deck by number, or one of the two special decks. */
  datatype AnyDeckWidget = UserDeckId(id: u16) | Blacklist | NeverForget

  datatype Vid = Vid(value: u16)
  /** Declared by the client; no operation of this model uses it. */
  datatype Rid = Rid(value: u16)
  datatype Sid = Sid(value: u16)

  /** One vocabulary entry: a word and one of its spellings. */
  type Vocabulary = (Vid, Sid)

  datatype UserDeckId = UserDeckId(value: u16)
  datatype SpecialDeckId = Blacklist | NeverForget

  /** An argument of a type implementing `AnyDeckId`: the two implementations form a closed set. */
  datatype DeckArg = User(user: UserDeckId) | Special(special: SpecialDeckId)

  /** `impl AnyDeckId for UserDeckId`. */
  function UserAsAny(d: UserDeckId): (w: AnyDeckWidget)
    ensures w.UserDeckId? && w.id == d.value
  {
    AnyDeckWidget.UserDeckId(d.value)
  }

  /** `impl AnyDeckId for SpecialDeckId`. */
  function SpecialAsAny(d: SpecialDeckId): (w: AnyDeckWidget)
    ensures w.Blacklist? <==> d.Blacklist?
    ensures w.NeverForget? <==> d.NeverForget?
  {
    match d
    case Blacklist => AnyDeckWidget.Blacklist
    case NeverForget => AnyDeckWidget.NeverForget
  }

  /** `deck_id.as_any()` for whichever implementation the argument has. */
  function AsAny(d: DeckArg): (w: AnyDeckWidget)
    ensures DeckArgOf(w) == d
  {
    match d
    case User(u) => UserAsAny(u)
    case Special(s) => SpecialAsAny(s)
  }

  /** The argument a widget came from; the inverse of `AsAny`. */
  function DeckArgOf(w: AnyDeckWidget): DeckArg
  {
    match w
    case UserDeckId(x) => User(UserDeckId.UserDeckId(x))
    case Blacklist => Special(SpecialDeckId.Blacklist)
    case NeverForget => Special(SpecialDeckId.NeverForget)
  }

  /** The conversion loses nothing: it is a bijection between deck arguments and widgets. */
  lemma AsAnyBijective(d: DeckArg, w: AnyDeckWidget)
    ensures DeckArgOf(AsAny(d)) == d
    ensures AsAny(DeckArgOf(w)) == w
  {
  }

  /** The hand-written `Serialize for AnyDeckWidget`. */
  function WidgetToJson(w: AnyDeckWidget): (j: Json)
    ensures j.Num? <==> w.UserDeckId?
    ensures w.UserDeckId? ==> j.n == w.id as nat
    ensures j == Str("blacklist") <==> w.Blacklist?
    ensures j == Str("never-forget") <==> w.NeverForget?
  {
    match w
    case UserDeckId(x) => Num(x as nat)
    case NeverForget => Str("never-forget")
    case Blacklist => Str("blacklist")
  }

  /** Reads a deck reference back from its wire form. */
  function WidgetFromJson(j: Json): Option<AnyDeckWidget>
  {
    match j
    case Num(n) => if n < 0x1_0000 then Some(AnyDeckWidget.UserDeckId(n as u16)) else None
    case Str(s) =>
      if s == "blacklist" then Some(AnyDeckWidget.Blacklist)
      else if s == "never-forget" then Some(AnyDeckWidget.NeverForget)
      else None
    case _ => None
  }

  lemma WidgetRoundTrip(w: AnyDeckWidget)
    ensures WidgetFromJson(WidgetToJson(w)) == Some(w)
  {
  }

  /** Distinct deck references are distinct on the wire. */
  lemma WidgetToJsonInjective(a: AnyDeckWidget, b: AnyDeckWidget)
    requires WidgetToJson(a) == WidgetToJson(b)
    ensures a == b
  {
  }

  /** `(Vid, Sid)` as serde writes a tuple of two newtype structs: `[vid, sid]`. */
  function VocabularyToJson(v: Vocabulary): (j: Json)
    ensures j.Arr? && |j.items| == 2
    ensures VocabularyFromJson(j) == Some(v)
  {
    Arr([Num(v.0.value as nat), Num(v.1.value as nat)])
  }

  /** A slice of vocabulary entries: one array element per entry, in input order. */
  function VocabularyListToJson(vs: seq<Vocabulary>): (items: seq<Json>)
    ensures |items| == |vs|
    ensures forall i :: 0 <= i < |vs| ==> items[i] == VocabularyToJson(vs[i])
  {
    if vs == [] then [] else [VocabularyToJson(vs[0])] + VocabularyListToJson(vs[1..])
  }

  function VocabularyFromJson(j: Json): Option<Vocabulary>
  {
    match j
    case Arr(items) =>
      if |items| == 2 && items[0].Num? && items[1].Num? && items[0].n < 0x1_0000 && items[1].n < 0x1_0000
      then Some((Vid(items[0].n as u16), Sid(items[1].n as u16)))
      else None
    case _ => None
  }

  function VocabularyListFromJson(items: seq<Json>): Option<seq<Vocabulary>>
  {
    if items == [] then Some([])
    else
      match (VocabularyFromJson(items[0]), VocabularyListFromJson(items[1..]))
      case (Some(v), Some(rest)) => Some([v] + rest)
      case _ => None
  }

  /** The serialised vocabulary list gives back exactly the entries, in order. */
  lemma {:induction false} VocabularyListRoundTrip(vs: seq<Vocabulary>)
    ensures VocabularyListFromJson(VocabularyListToJson(vs)) == Some(vs)
  {
    if vs != [] {
      var items := VocabularyListToJson(vs);
      assert items[1..] == VocabularyListToJson(vs[1..]);
      VocabularyListRoundTrip(vs[1..]);
      assert [vs[0]] + vs[1..] == vs;
    }
  }

  /** The options of `set_card_sentence`; absent fields are left unchanged by the service. */
  datatype SetCardSentenceOptions = SetCardSentenceOptions(
    vid: Vid,
    sid: Sid,
    sentence: Option<string>,
    translation: Option<string>,
    clearAudio: Option<bool>,
    clearImage: Option<bool>)

  /** `Default for SetCardSentenceOptions`. */
  function DefaultOptions(): (o: SetCardSentenceOptions)
    ensures o.vid.value == 0 && o.sid.value == 0
    ensures OptionsMap(o).Keys == {"vid", "sid"}
  {
    SetCardSentenceOptions(Vid(0), Sid(0), None, None, None, None)
  }

  function StrOf(s: Option<string>): Option<Json>
  {
    if s.Some? then Some(Str(s.value)) else None
  }

  function BoolOf(b: Option<bool>): Option<Json>
  {
    if b.Some? then Some(Bool(b.value)) else None
  }

  /**
   * The object the options denote: `vid` and `sid` always, each optional field
   * exactly when it is set (`skip_serializing_if = "Option::is_none"`).
   */
  function OptionsMap(o: SetCardSentenceOptions): map<string, Json>
  {
    map["vid" := Num(o.vid.value as nat), "sid" := Num(o.sid.value as nat)]
      + OptionalMap("sentence", StrOf(o.sentence))
      + OptionalMap("translation", StrOf(o.translation))
      + OptionalMap("clear_audio", BoolOf(o.clearAudio))
      + OptionalMap("clear_image", BoolOf(o.clearImage))
  }

  /** The derived `Serialize` with its skip rule: the members in declaration order. */
  function OptionsToJson(o: SetCardSentenceOptions): (j: Json)
    ensures j.Obj? && Denotes(j.fields, OptionsMap(o))
  {
    var vid, sid := Num(o.vid.value as nat), Num(o.sid.value as nat);
    var s := Optional("sentence", StrOf(o.sentence));
    var t := Optional("translation", StrOf(o.translation));
    var a := Optional("clear_audio", BoolOf(o.clearAudio));
    var i := Optional("clear_image", BoolOf(o.clearImage));
    DenotesTwo("vid", vid, "sid", sid);
    DenotesChain(
      [("vid", vid), ("sid", sid)], s, t, a, i,
      map["vid" := vid, "sid" := sid],
      OptionalMap("sentence", StrOf(o.sentence)),
      OptionalMap("translation", StrOf(o.translation)),
      OptionalMap("clear_audio", BoolOf(o.clearAudio)),
      OptionalMap("clear_image", BoolOf(o.clearImage)));
    Obj([("vid", vid), ("sid", sid)] + s + t + a + i)
  }

  /** Five member lists over pairwise disjoint keys concatenate to the union of their maps. */
  lemma DenotesChain(
    f0: seq<(string, Json)>, f1: seq<(string, Json)>, f2: seq<(string, Json)>, f3: seq<(string, Json)>, f4: seq<(string, Json)>,
    m0: map<string, Json>, m1: map<string, Json>, m2: map<string, Json>, m3: map<string, Json>, m4: map<string, Json>)
    requires Denotes(f0, m0) && Denotes(f1, m1) && Denotes(f2, m2) && Denotes(f3, m3) && Denotes(f4, m4)
    requires m0.Keys !! m1.Keys && m0.Keys !! m2.Keys && m0.Keys !! m3.Keys && m0.Keys !! m4.Keys
    requires m1.Keys !! m2.Keys && m1.Keys !! m3.Keys && m1.Keys !! m4.Keys
    requires m2.Keys !! m3.Keys && m2.Keys !! m4.Keys && m3.Keys !! m4.Keys
    ensures Denotes(f0 + f1 + f2 + f3 + f4, m0 + m1 + m2 + m3 + m4)
  {
    DenotesConcat(f0, f1, m0, m1);
    DenotesConcat(f0 + f1, f2, m0 + m1, m2);
    DenotesConcat(f0 + f1 + f2, f3, m0 + m1 + m2, m3);
    DenotesConcat(f0 + f1 + f2 + f3, f4, m0 + m1 + m2 + m3, m4);
  }

  /** Which keys the options' object has, and that none of its values is `null`. */
  lemma OptionsMapShape(o: SetCardSentenceOptions)
    ensures var ks := OptionsMap(o).Keys;
      && "vid" in ks && "sid" in ks
      && ("sentence" in ks <==> o.sentence.Some?)
      && ("translation" in ks <==> o.translation.Some?)
      && ("clear_audio" in ks <==> o.clearAudio.Some?)
      && ("clear_image" in ks <==> o.clearImage.Some?)
      && ks <= {"vid", "sid", "sentence", "translation", "clear_audio", "clear_image"}
    ensures forall k :: k in OptionsMap(o) ==> OptionsMap(o)[k] != Null
  {
    var m0 := map["vid" := Num(o.vid.value as nat), "sid" := Num(o.sid.value as nat)];
    var ms := OptionalMap("sentence", StrOf(o.sentence));
    var mt := OptionalMap("translation", StrOf(o.translation));
    var ma := OptionalMap("clear_audio", BoolOf(o.clearAudio));
    var mi := OptionalMap("clear_image", BoolOf(o.clearImage));
    assert OptionsMap(o) == m0 + ms + mt + ma + mi;
    assert m0.Keys == {"vid", "sid"};
    assert OptionsMap(o).Keys == m0.Keys + ms.Keys + mt.Keys + ma.Keys + mi.Keys;
    forall k | k in OptionsMap(o) ensures OptionsMap(o)[k] != Null {
      if k in mi { assert OptionsMap(o)[k] == mi[k]; }
      else if k in ma { assert OptionsMap(o)[k] == ma[k]; }
      else if k in mt { assert OptionsMap(o)[k] == mt[k]; }
      else if k in ms { assert OptionsMap(o)[k] == ms[k]; }
      else { assert OptionsMap(o)[k] == m0[k]; }
    }
  }

  /**
   * The serialised options always carry `vid` and `sid`, carry each optional
   * field exactly when it is set, and never carry `null`.
   */
  lemma OptionsKeys(o: SetCardSentenceOptions)
    ensures var j := OptionsToJson(o); j.Obj? && DistinctKeys(j.fields)
    ensures var ks := KeySet(OptionsToJson(o).fields);
      && "vid" in ks && "sid" in ks
      && ("sentence" in ks <==> o.sentence.Some?)
      && ("translation" in ks <==> o.translation.Some?)
      && ("clear_audio" in ks <==> o.clearAudio.Some?)
      && ("clear_image" in ks <==> o.clearImage.Some?)
      && ks <= {"vid", "sid", "sentence", "translation", "clear_audio", "clear_image"}
    ensures forall k :: k in KeySet(OptionsToJson(o).fields) ==> Get(OptionsToJson(o).fields, k) != Some(Null)
    ensures NoNullMember(OptionsToJson(o).fields)
  {
    OptionsMapShape(o);
    DenotesNoNull(OptionsToJson(o).fields, OptionsMap(o));
  }

  /** The default options with only `vid` and `sid` chosen serialise to exactly `{vid, sid}`. */
  lemma DefaultOptionsKeys(vid: Vid, sid: Sid)
    ensures var j := OptionsToJson(DefaultOptions().(vid := vid, sid := sid));
      KeySet(j.fields) == {"vid", "sid"}
      && Get(j.fields, "vid") == Some(Num(vid.value as nat))
      && Get(j.fields, "sid") == Some(Num(sid.value as nat))
  {
  }

  /** A request ready to be sent: the full URL and the JSON body. */
  datatype Request = Request(url: string, body: Json)

  function Ping(c: Client.Client): (r: Request)
    ensures r.url == Client.Url(c.baseUrl, "ping")
    ensures r.body == Null
  {
    Request(Client.Url(c.baseUrl, "ping"), Null)
  }

  function RemoveVocabulary(c: Client.Client, deck: DeckArg, vocabulary: seq<Vocabulary>): (r: Request)
    ensures r.url == Client.Url(c.baseUrl, "deck/remove-vocabulary")
    ensures r.body.Obj?
    ensures Denotes(r.body.fields, map["id" := WidgetToJson(AsAny(deck)), "vocabulary" := Arr(VocabularyListToJson(vocabulary))])
  {
    DenotesTwo("id", WidgetToJson(AsAny(deck)), "vocabulary", Arr(VocabularyListToJson(vocabulary)));
    Request(
      Client.Url(c.baseUrl, "deck/remove-vocabulary"),
      Obj([("id", WidgetToJson(AsAny(deck))), ("vocabulary", Arr(VocabularyListToJson(vocabulary)))]))
  }

  /** The body of `remove_vocabulary` names the deck and gives back every entry, in order. */
  lemma RemoveVocabularyBody(c: Client.Client, deck: DeckArg, vocabulary: seq<Vocabulary>)
    ensures var f := RemoveVocabulary(c, deck, vocabulary).body.fields;
      && WidgetFromJson(Get(f, "id").value) == Some(AsAny(deck))
      && Get(f, "vocabulary").value.Arr?
      && |Get(f, "vocabulary").value.items| == |vocabulary|
      && VocabularyListFromJson(Get(f, "vocabulary").value.items) == Some(vocabulary)
  {
    WidgetRoundTrip(AsAny(deck));
    VocabularyListRoundTrip(vocabulary);
  }

  function ClearDeck(c: Client.Client, deck: DeckArg): (r: Request)
    ensures r.url == Client.Url(c.baseUrl, "deck/clear")
    ensures r.body.Obj? && Denotes(r.body.fields, map["id" := WidgetToJson(AsAny(deck))])
  {
    DenotesOne("id", WidgetToJson(AsAny(deck)));
    Request(Client.Url(c.baseUrl, "deck/clear"), Obj([("id", WidgetToJson(AsAny(deck)))]))
  }

  function DeleteDeck(c: Client.Client, deck: UserDeckId): (r: Request)
    ensures r.url == Client.Url(c.baseUrl, "deck/delete")
    ensures r.body.Obj? && Denotes(r.body.fields, map["id" := Num(deck.value as nat)])
  {
    DenotesOne("id", WidgetToJson(UserAsAny(deck)));
    Request(Client.Url(c.baseUrl, "deck/delete"), Obj([("id", WidgetToJson(UserAsAny(deck)))]))
  }

  /** As written, `rename_deck` posts to the endpoint of `delete_deck`. */
  function RenameDeck(c: Client.Client, deck: UserDeckId, newName: string): (r: Request)
    ensures r.url == Client.Url(c.baseUrl, "deck/delete")
    ensures r.body.Obj? && Denotes(r.body.fields, map["id" := Num(deck.value as nat), "name" := Str(newName)])
  {
    DenotesTwo("id", WidgetToJson(UserAsAny(deck)), "name", Str(newName));
    Request(
      Client.Url(c.baseUrl, "deck/delete"),
      Obj([("id", WidgetToJson(UserAsAny(deck))), ("name", Str(newName))]))
  }

  function SetCardSentence(c: Client.Client, options: SetCardSentenceOptions): (r: Request)
    ensures r.url == Client.Url(c.baseUrl, "set-card-sentence")
    ensures r.body.Obj? && Denotes(r.body.fields, OptionsMap(options))
  {
    Request(Client.Url(c.baseUrl, "set-card-sentence"), OptionsToJson(options))
  }

  /** The operations of this model with their arguments. */
  datatype Operation =
    | PingCall
    | RemoveVocabularyCall(deck: DeckArg, vocabulary: seq<Vocabulary>)
    | ClearDeckCall(deck: DeckArg)
    | DeleteDeckCall(user: UserDeckId)
    | RenameDeckCall(user: UserDeckId, newName: string)
    | SetCardSentenceCall(options: SetCardSentenceOptions)

  function Assemble(c: Client.Client, op: Operation): Request
  {
    match op
    case PingCall => Ping(c)
    case RemoveVocabularyCall(d, vs) => RemoveVocabulary(c, d, vs)
    case ClearDeckCall(d) => ClearDeck(c, d)
    case DeleteDeckCall(u) => DeleteDeck(c, u)
    case RenameDeckCall(u, n) => RenameDeck(c, u, n)
    case SetCardSentenceCall(o) => SetCardSentence(c, o)
  }

  /** Every request goes to a URL below the client's base URL. */
  lemma EveryUrlExtendsBase(c: Client.Client, op: Operation)
    ensures c.baseUrl <= Assemble(c, op).url
  {
  }

  /** The rename request and the delete request for the same deck go to the same URL. */
  lemma RenameSharesDeleteUrl(c: Client.Client, deck: UserDeckId, newName: string)
    ensures RenameDeck(c, deck, newName).url == DeleteDeck(c, deck).url
    ensures RenameDeck(c, deck, newName).body != DeleteDeck(c, deck).body
  {
  }

  /** What a client method returns: `Ok(())`, the converted error of `?`, or the panic of the conversion. */
  datatype CallResult = Ok | Err(error: Errors.Error) | Panicked

  /**
   * `self.send_request(request)?; Ok(())`, given the outcome of the network
   * call: `None` when it succeeded, `Some(e)` when ureq reported `e`.
   */
  function Settle(sent: Option<Errors.UreqError>): (r: CallResult)
    ensures r.Ok? <==> sent.None?
    ensures r.Panicked? <==> sent.Some? && sent.value.Status? && sent.value.body.None?
    ensures r.Err? ==> Errors.FromUreq(sent.value) == Some(r.error)
  {
    match sent
    case None => Ok
    case Some(e) =>
      match Errors.FromUreq(e)
      case Some(err) => Err(err)
      case None => Panicked
  }
}
