/**
 The state file: `serialize_state` and `deserialize_state`. Reading is described on what is
 left of the buffer; the loops of the source, with their position, are proved against that.
 */
module StateFile {
  import opened Bytes
  import opened BrokerModel
  import Wire

  const STATE_MAGIC: Bytes := [77, 81, 84, 84, 83, 84, 65, 84, 69, 0]
  const STATE_VERSION: byte := 1

  // ---- Writing

  function Field(s: Bytes): (r: Bytes) {
    Le16(|s|) + s
  }

  function WishBytes(w: Wish): (r: Bytes) {
    Field(w.filter) + [w.qos as byte]
  }

  function MessageBytes(m: Message): (r: Bytes) {
    Field(m.topic) + (Field(m.payload) + [m.qos as byte])
  }

  /** A list of things, each written the same way. */
  function List<T>(bytes: T -> Bytes, xs: seq<T>): (r: Bytes) {
    if xs == [] then [] else List(bytes, xs[..|xs| - 1]) + bytes(xs[|xs| - 1])
  }

  lemma ListSnoc<T>(bytes: T -> Bytes, xs: seq<T>, x: T)
    ensures List(bytes, xs + [x]) == List(bytes, xs) + bytes(x)
  {
    assert (xs + [x])[..|xs|] == xs;
  }

  /** A list with its length in front. */
  function Counted<T>(bytes: T -> Bytes, xs: seq<T>): (r: Bytes) {
    Le16(|xs|) + List(bytes, xs)
  }

  /** An entry of a table, and the order in which a table was walked. */
  datatype Keyed<V> = Keyed(key: Bytes, value: V)

  ghost predicate LaysOut<V>(m: map<Bytes, V>, order: seq<Keyed<V>>) {
    && (forall k :: k in m ==> Keyed(k, m[k]) in order)
    && (forall i :: 0 <= i < |order| ==> order[i].key in m && m[order[i].key] == order[i].value)
    && (forall i, j :: 0 <= i < j < |order| ==> order[i].key != order[j].key)
  }

  lemma LaysOutOneMore<V>(m: map<Bytes, V>, order: seq<Keyed<V>>, k: Bytes, v: V)
    requires LaysOut(m, order) && k !in m
    ensures LaysOut(m[k := v], order + [Keyed(k, v)])
  {
  }

  lemma OneMoreDone<V>(m: map<Bytes, V>, todo: set<Bytes>, k: Bytes)
    requires k in todo && todo <= m.Keys
    ensures (m - todo)[k := m[k]] == m - (todo - {k}) && k !in m - todo
  {
  }

  function RetainedBytes(e: Keyed<Retained>): (r: Bytes) {
    MessageBytes(Message(e.key, e.value.payload, e.value.qos))
  }

  function SessionBytes(e: Keyed<Stored>): (r: Bytes) {
    Field(e.key) + (Counted(WishBytes, e.value.subs) + Counted(MessageBytes, e.value.offline))
  }

  function TableBytes(retained: seq<Keyed<Retained>>, sessions: seq<Keyed<Stored>>): (r: Bytes) {
    Counted(RetainedBytes, retained) + Counted(SessionBytes, sessions)
  }

  function FileBytes(retained: seq<Keyed<Retained>>, sessions: seq<Keyed<Stored>>): (r: Bytes) {
    STATE_MAGIC + [STATE_VERSION] + TableBytes(retained, sessions)
  }

  /** Both tables in whatever order they are iterated; `ro` and `so` say which it was. */
  method Serialize(retained: map<Bytes, Retained>, sessions: map<Bytes, Stored>)
    returns (out: Bytes, ghost ro: seq<Keyed<Retained>>, ghost so: seq<Keyed<Stored>>)
    ensures LaysOut(retained, ro) && |ro| == |retained|
    ensures LaysOut(sessions, so) && |so| == |sessions|
    ensures out == FileBytes(ro, so)
    ensures Parse(out) == Some((retained, sessions)) <==> Storable(retained, sessions)
    ensures Storable(retained, sessions) ==> forall k :: 0 <= k < |out| ==> Parse(out[..k]) == None
  {
    var first, second;
    first, ro := SerializeRetained(retained);
    second, so := SerializeSessions(sessions);
    out := STATE_MAGIC + [STATE_VERSION] + (Le16(|retained|) + first + (Le16(|sessions|) + second));
    RoundTripExactly(retained, sessions, ro, so);
    FitsIsStorable(retained, sessions, ro, so);
    if Fits(ro, so) {
      forall k | 0 <= k < |out|
        ensures Parse(out[..k]) == None
      {
        TruncatedFileIsRefused(ro, so, k);
      }
    }
  }

  method SerializeRetained(retained: map<Bytes, Retained>) returns (out: Bytes, ghost order: seq<Keyed<Retained>>)
    ensures LaysOut(retained, order) && |order| == |retained| && out == List(RetainedBytes, order)
  {
    out, order := [], [];
    var todo := retained.Keys;
    while todo != {}
      invariant todo <= retained.Keys && |order| + |todo| == |retained.Keys|
      invariant LaysOut(retained - todo, order) && out == List(RetainedBytes, order)
      decreases todo
    {
      var topic :| topic in todo;
      var e := Keyed(topic, retained[topic]);
      ListSnoc(RetainedBytes, order, e);
      LaysOutOneMore(retained - todo, order, topic, retained[topic]);
      out := out + (Field(topic) + (Field(e.value.payload) + [e.value.qos as byte]));
      OneMoreDone(retained, todo, topic);
      todo, order := todo - {topic}, order + [e];
    }
    assert retained - todo == retained;
    assert |retained.Keys| == |retained|;
  }

  method SerializeSessions(sessions: map<Bytes, Stored>) returns (out: Bytes, ghost order: seq<Keyed<Stored>>)
    ensures LaysOut(sessions, order) && |order| == |sessions| && out == List(SessionBytes, order)
  {
    out, order := [], [];
    var todo := sessions.Keys;
    while todo != {}
      invariant todo <= sessions.Keys && |order| + |todo| == |sessions.Keys|
      invariant LaysOut(sessions - todo, order) && out == List(SessionBytes, order)
      decreases todo
    {
      var cid :| cid in todo;
      var one := SerializeSession(cid, sessions[cid]);
      ghost var e := Keyed(cid, sessions[cid]);
      ListSnoc(SessionBytes, order, e);
      LaysOutOneMore(sessions - todo, order, cid, sessions[cid]);
      out := out + one;
      OneMoreDone(sessions, todo, cid);
      todo, order := todo - {cid}, order + [e];
    }
    assert sessions - todo == sessions;
    assert |sessions.Keys| == |sessions|;
  }

  method SerializeSession(cid: Bytes, sess: Stored) returns (out: Bytes)
    ensures out == SessionBytes(Keyed(cid, sess))
  {
    var subs: Bytes := [];
    for i := 0 to |sess.subs|
      invariant subs == List(WishBytes, sess.subs[..i])
    {
      ListSnoc(WishBytes, sess.subs[..i], sess.subs[i]);
      assert sess.subs[..i + 1] == sess.subs[..i] + [sess.subs[i]];
      subs := subs + WishBytes(sess.subs[i]);
    }
    assert sess.subs[..|sess.subs|] == sess.subs;
    var offline: Bytes := [];
    for i := 0 to |sess.offline|
      invariant offline == List(MessageBytes, sess.offline[..i])
    {
      ListSnoc(MessageBytes, sess.offline[..i], sess.offline[i]);
      assert sess.offline[..i + 1] == sess.offline[..i] + [sess.offline[i]];
      offline := offline + MessageBytes(sess.offline[i]);
    }
    assert sess.offline[..|sess.offline|] == sess.offline;
    out := Field(cid) + (Le16(|sess.subs|) + subs + (Le16(|sess.offline|) + offline));
  }

  // ---- Reading: each reader takes something off the front, or fails

  datatype Read<+T> = Short | Got(value: T, rest: Bytes)

  function Take(b: Bytes, n: nat): (r: Read<Bytes>) {
    if n > |b| then Short else Got(b[..n], b[n..])
  }

  function TakeU16(b: Bytes): (r: Read<nat>) {
    match Take(b, 2)
    case Short => Short
    case Got(f, rest) => Got(FromBe16(f[1], f[0]), rest)
  }

  function TakeField(b: Bytes): (r: Read<Bytes>) {
    match TakeU16(b)
    case Short => Short
    case Got(n, rest) => Take(rest, n)
  }

  /** A QoS byte; a value above 2 fails the whole read. */
  function TakeQos(b: Bytes): (r: Read<Wire.QoS>) {
    match Take(b, 1)
    case Short => Short
    case Got(f, rest) => if f[0] > 2 then Short else Got(f[0] as int, rest)
  }

  function TakeWish(b: Bytes): (r: Read<Wish>) {
    match TakeField(b)
    case Short => Short
    case Got(filter, b1) =>
      match TakeQos(b1)
      case Short => Short
      case Got(q, b2) => Got(Wish(filter, q), b2)
  }

  function TakeMessage(b: Bytes): (r: Read<Message>) {
    match TakeField(b)
    case Short => Short
    case Got(topic, b1) =>
      match TakeField(b1)
      case Short => Short
      case Got(payload, b2) =>
        match TakeQos(b2)
        case Short => Short
        case Got(q, b3) => Got(Message(topic, payload, q), b3)
  }

  /** `n` things in a row. */
  function TakeMany<T>(take: Bytes -> Read<T>, b: Bytes, n: nat): (r: Read<seq<T>>) {
    if n == 0 then Got([], b)
    else
      match TakeMany(take, b, n - 1)
      case Short => Short
      case Got(xs, b1) =>
        match take(b1)
        case Short => Short
        case Got(x, b2) => Got(xs + [x], b2)
  }

  /** A count, and then as many things. */
  function TakeCounted<T>(take: Bytes -> Read<T>, b: Bytes): (r: Read<seq<T>>) {
    match TakeU16(b)
    case Short => Short
    case Got(n, b1) => TakeMany(take, b1, n)
  }

  function TakeRetained(b: Bytes): (r: Read<Keyed<Retained>>) {
    match TakeMessage(b)
    case Short => Short
    case Got(m, b1) => Got(Keyed(m.topic, Retained(m.payload, m.qos)), b1)
  }

  function TakeSession(b: Bytes): (r: Read<Keyed<Stored>>) {
    match TakeField(b)
    case Short => Short
    case Got(cid, b1) =>
      match TakeCounted(TakeWish, b1)
      case Short => Short
      case Got(subs, b2) =>
        match TakeCounted(TakeMessage, b2)
        case Short => Short
        case Got(offline, b3) => Got(Keyed(cid, Stored(subs, offline)), b3)
  }

  /** The two lists of a file, after the header; bytes that follow them are ignored. */
  function TakeTables(b: Bytes): (r: Read<(seq<Keyed<Retained>>, seq<Keyed<Stored>>)>) {
    match TakeCounted(TakeRetained, b)
    case Short => Short
    case Got(retained, b1) =>
      match TakeCounted(TakeSession, b1)
      case Short => Short
      case Got(sessions, b2) => Got((retained, sessions), b2)
  }

  predicate GoodHeader(data: Bytes) {
    |data| >= 11 && data[..10] == STATE_MAGIC && data[10] == STATE_VERSION
  }

  /** Later entries for the same key replace earlier ones, as `HashMap::insert` does. */
  function Table<V>(es: seq<Keyed<V>>): (m: map<Bytes, V>) {
    if es == [] then map[] else Table(es[..|es| - 1])[es[|es| - 1].key := es[|es| - 1].value]
  }

  function Parse(data: Bytes): (r: Option<(map<Bytes, Retained>, map<Bytes, Stored>)>) {
    if !GoodHeader(data) then None
    else
      match TakeTables(data[11..])
      case Short => None
      case Got((ro, so), _) => Some((Table(ro), Table(so)))
  }

  // ---- What fits the format

  predicate FitsWish(w: Wish) {
    |w.filter| <= U16_MAX && w.qos <= 2
  }

  predicate FitsMessage(m: Message) {
    |m.topic| <= U16_MAX && |m.payload| <= U16_MAX && m.qos <= 2
  }

  predicate FitsRetained(e: Keyed<Retained>) {
    FitsMessage(Message(e.key, e.value.payload, e.value.qos))
  }

  predicate FitsSession(e: Keyed<Stored>) {
    && |e.key| <= U16_MAX && |e.value.subs| <= U16_MAX && |e.value.offline| <= U16_MAX
    && (forall w :: w in e.value.subs ==> FitsWish(w))
    && (forall m :: m in e.value.offline ==> FitsMessage(m))
  }

  predicate Fits(retained: seq<Keyed<Retained>>, sessions: seq<Keyed<Stored>>) {
    && |retained| <= U16_MAX && |sessions| <= U16_MAX
    && (forall e :: e in retained ==> FitsRetained(e))
    && (forall e :: e in sessions ==> FitsSession(e))
  }

  /** What the format can hold, said of the tables themselves. */
  predicate Storable(retained: map<Bytes, Retained>, sessions: map<Bytes, Stored>) {
    && |retained| <= U16_MAX && |sessions| <= U16_MAX
    && (forall t :: t in retained ==> FitsRetained(Keyed(t, retained[t])))
    && (forall cid :: cid in sessions ==> FitsSession(Keyed(cid, sessions[cid])))
  }

  lemma FitsInAnyOrder<V>(m: map<Bytes, V>, order: seq<Keyed<V>>, fits: Keyed<V> -> bool)
    requires LaysOut(m, order)
    ensures (forall e :: e in order ==> fits(e)) <==> (forall k :: k in m ==> fits(Keyed(k, m[k])))
  {
    forall e | e in order
      ensures e.key in m && e == Keyed(e.key, m[e.key])
    {
      var i :| 0 <= i < |order| && order[i] == e;
    }
  }

  // ---- Reading back what was written

  lemma TakeFront(a: Bytes, rest: Bytes)
    ensures Take(a + rest, |a|) == Got(a, rest)
  {
    assert (a + rest)[..|a|] == a;
    assert (a + rest)[|a|..] == rest;
  }

  lemma ReadU16(n: nat, rest: Bytes)
    requires n <= U16_MAX
    ensures TakeU16(Le16(n) + rest) == Got(n, rest)
  {
    TakeFront(Le16(n), rest);
    assert n / 256 % 256 == n / 256;
  }

  lemma ReadField(s: Bytes, rest: Bytes)
    requires |s| <= U16_MAX
    ensures TakeField(Field(s) + rest) == Got(s, rest)
  {
    Assoc(Le16(|s|), s, rest);
    ReadU16(|s|, s + rest);
    TakeFront(s, rest);
  }

  lemma ReadQos(q: Wire.QoS, rest: Bytes)
    requires q <= 2
    ensures TakeQos([q as byte] + rest) == Got(q, rest)
  {
    TakeFront([q as byte], rest);
  }

  lemma ReadWish(w: Wish, rest: Bytes)
    requires FitsWish(w)
    ensures TakeWish(WishBytes(w) + rest) == Got(w, rest)
  {
    Assoc(Field(w.filter), [w.qos as byte], rest);
    ReadField(w.filter, [w.qos as byte] + rest);
    ReadQos(w.qos, rest);
  }

  lemma ReadMessage(m: Message, rest: Bytes)
    requires FitsMessage(m)
    ensures TakeMessage(MessageBytes(m) + rest) == Got(m, rest)
  {
    var q := [m.qos as byte];
    Assoc(Field(m.topic), Field(m.payload) + q, rest);
    Assoc(Field(m.payload), q, rest);
    ReadField(m.topic, Field(m.payload) + (q + rest));
    ReadField(m.payload, q + rest);
    ReadQos(m.qos, rest);
  }

  /** The reader takes back exactly what the writer wrote. */
  ghost predicate Inverse<T(!new)>(bytes: T -> Bytes, take: Bytes -> Read<T>, x: T) {
    forall rest :: take(bytes(x) + rest) == Got(x, rest)
  }

  lemma {:induction false} ReadMany<T(!new)>(bytes: T -> Bytes, take: Bytes -> Read<T>, xs: seq<T>, rest: Bytes)
    requires forall x :: x in xs ==> Inverse(bytes, take, x)
    ensures TakeMany(take, List(bytes, xs) + rest, |xs|) == Got(xs, rest)
  {
    if xs == [] {
      assert [] + rest == rest;
    } else {
      var front, last := xs[..|xs| - 1], xs[|xs| - 1];
      assert xs == front + [last];
      ReadMany(bytes, take, front, bytes(last) + rest);
      Assoc(List(bytes, front), bytes(last), rest);
      assert Inverse(bytes, take, last);
    }
  }

  lemma ReadCounted<T(!new)>(bytes: T -> Bytes, take: Bytes -> Read<T>, xs: seq<T>, rest: Bytes)
    requires |xs| <= U16_MAX && forall x :: x in xs ==> Inverse(bytes, take, x)
    ensures TakeCounted(take, Counted(bytes, xs) + rest) == Got(xs, rest)
  {
    Assoc(Le16(|xs|), List(bytes, xs), rest);
    ReadU16(|xs|, List(bytes, xs) + rest);
    ReadMany(bytes, take, xs, rest);
  }

  lemma WishInverse(w: Wish)
    requires FitsWish(w)
    ensures Inverse(WishBytes, TakeWish, w)
  {
    forall rest
      ensures TakeWish(WishBytes(w) + rest) == Got(w, rest)
    {
      ReadWish(w, rest);
    }
  }

  lemma MessageInverse(m: Message)
    requires FitsMessage(m)
    ensures Inverse(MessageBytes, TakeMessage, m)
  {
    forall rest
      ensures TakeMessage(MessageBytes(m) + rest) == Got(m, rest)
    {
      ReadMessage(m, rest);
    }
  }

  lemma RetainedInverse(e: Keyed<Retained>)
    requires FitsRetained(e)
    ensures Inverse(RetainedBytes, TakeRetained, e)
  {
    MessageInverse(Message(e.key, e.value.payload, e.value.qos));
  }

  lemma ReadSession(e: Keyed<Stored>, rest: Bytes)
    requires FitsSession(e)
    ensures TakeSession(SessionBytes(e) + rest) == Got(e, rest)
  {
    var subs, offline := Counted(WishBytes, e.value.subs), Counted(MessageBytes, e.value.offline);
    Assoc(Field(e.key), subs + offline, rest);
    Assoc(subs, offline, rest);
    ReadField(e.key, subs + (offline + rest));
    forall w | w in e.value.subs
      ensures Inverse(WishBytes, TakeWish, w)
    {
      WishInverse(w);
    }
    ReadCounted(WishBytes, TakeWish, e.value.subs, offline + rest);
    forall m | m in e.value.offline
      ensures Inverse(MessageBytes, TakeMessage, m)
    {
      MessageInverse(m);
    }
    ReadCounted(MessageBytes, TakeMessage, e.value.offline, rest);
  }

  lemma SessionInverse(e: Keyed<Stored>)
    requires FitsSession(e)
    ensures Inverse(SessionBytes, TakeSession, e)
  {
    forall rest
      ensures TakeSession(SessionBytes(e) + rest) == Got(e, rest)
    {
      ReadSession(e, rest);
    }
  }

  lemma ReadTables(retained: seq<Keyed<Retained>>, sessions: seq<Keyed<Stored>>, rest: Bytes)
    requires Fits(retained, sessions)
    ensures TakeTables(TableBytes(retained, sessions) + rest) == Got((retained, sessions), rest)
  {
    var a, b := Counted(RetainedBytes, retained), Counted(SessionBytes, sessions);
    Assoc(a, b, rest);
    forall e | e in retained
      ensures Inverse(RetainedBytes, TakeRetained, e)
    {
      RetainedInverse(e);
    }
    ReadCounted(RetainedBytes, TakeRetained, retained, b + rest);
    forall e | e in sessions
      ensures Inverse(SessionBytes, TakeSession, e)
    {
      SessionInverse(e);
    }
    ReadCounted(SessionBytes, TakeSession, sessions, rest);
  }

  /** A table laid out in any order is the table that comes back from that order. */
  lemma {:induction false} TableRoundTrip<V>(m: map<Bytes, V>, order: seq<Keyed<V>>)
    requires LaysOut(m, order)
    ensures Table(order) == m
  {
    if order != [] {
      var front, last := order[..|order| - 1], order[|order| - 1];
      var less := m - {last.key};
      LaysOutFront(m, order);
      TableRoundTrip(less, front);
      assert m == less[last.key := last.value];
    }
  }

  lemma LaysOutFront<V>(m: map<Bytes, V>, order: seq<Keyed<V>>)
    requires LaysOut(m, order) && order != []
    ensures LaysOut(m - {order[|order| - 1].key}, order[..|order| - 1])
  {
    var front, last := order[..|order| - 1], order[|order| - 1];
    var less := m - {last.key};
    forall k | k in less
      ensures Keyed(k, less[k]) in front
    {
      var i :| 0 <= i < |order| && order[i] == Keyed(k, m[k]);
      assert front[i] == order[i];
    }
  }

  /** A table built from some entries has only those, and no more than there were. */
  lemma {:induction false} TableFrom<V>(es: seq<Keyed<V>>)
    ensures |Table(es)| <= |es|
    ensures forall k :: k in Table(es) ==> Keyed(k, Table(es)[k]) in es
  {
    if es != [] {
      var front, last := es[..|es| - 1], es[|es| - 1];
      TableFrom(front);
      assert es == front + [last];
    }
  }

  // ---- A reader that succeeds does not look at what follows

  /** The same result with more bytes left over. */
  function Plus<T>(r: Read<T>, x: Bytes): (p: Read<T>) {
    match r
    case Short => Short
    case Got(v, rest) => Got(v, rest + x)
  }

  ghost predicate IgnoresTail<T(!new)>(take: Bytes -> Read<T>) {
    forall b, x :: take(b).Got? ==> take(b + x) == Plus(take(b), x)
  }

  lemma TakeExtends(b: Bytes, n: nat, x: Bytes)
    ensures Take(b, n).Got? ==> Take(b + x, n) == Plus(Take(b, n), x)
  {
    if n <= |b| {
      assert (b + x)[..n] == b[..n];
      DropOfConcat(b, x, n);
    }
  }

  lemma U16Extends(b: Bytes, x: Bytes)
    ensures TakeU16(b).Got? ==> TakeU16(b + x) == Plus(TakeU16(b), x)
  {
    TakeExtends(b, 2, x);
  }

  lemma FieldExtends(b: Bytes, x: Bytes)
    ensures TakeField(b).Got? ==> TakeField(b + x) == Plus(TakeField(b), x)
  {
    U16Extends(b, x);
    if TakeU16(b).Got? {
      TakeExtends(TakeU16(b).rest, TakeU16(b).value, x);
    }
  }

  lemma QosExtends(b: Bytes, x: Bytes)
    ensures TakeQos(b).Got? ==> TakeQos(b + x) == Plus(TakeQos(b), x)
  {
    TakeExtends(b, 1, x);
  }

  lemma WishExtends()
    ensures IgnoresTail(TakeWish)
  {
    forall b, x | TakeWish(b).Got?
      ensures TakeWish(b + x) == Plus(TakeWish(b), x)
    {
      FieldExtends(b, x);
      QosExtends(TakeField(b).rest, x);
    }
  }

  lemma MessageExtends()
    ensures IgnoresTail(TakeMessage)
  {
    forall b, x | TakeMessage(b).Got?
      ensures TakeMessage(b + x) == Plus(TakeMessage(b), x)
    {
      FieldExtends(b, x);
      var b1 := TakeField(b).rest;
      FieldExtends(b1, x);
      QosExtends(TakeField(b1).rest, x);
    }
  }

  lemma RetainedExtends()
    ensures IgnoresTail(TakeRetained)
  {
    MessageExtends();
  }

  lemma {:induction false} ManyExtend<T(!new)>(take: Bytes -> Read<T>, b: Bytes, n: nat, x: Bytes)
    requires IgnoresTail(take)
    ensures TakeMany(take, b, n).Got? ==> TakeMany(take, b + x, n) == Plus(TakeMany(take, b, n), x)
  {
    if n > 0 {
      ManyExtend(take, b, n - 1, x);
    }
  }

  lemma CountedExtends<T(!new)>(take: Bytes -> Read<T>, b: Bytes, x: Bytes)
    requires IgnoresTail(take)
    ensures TakeCounted(take, b).Got? ==> TakeCounted(take, b + x) == Plus(TakeCounted(take, b), x)
  {
    U16Extends(b, x);
    if TakeU16(b).Got? {
      ManyExtend(take, TakeU16(b).rest, TakeU16(b).value, x);
    }
  }

  lemma SessionExtends()
    ensures IgnoresTail(TakeSession)
  {
    WishExtends();
    MessageExtends();
    forall b, x | TakeSession(b).Got?
      ensures TakeSession(b + x) == Plus(TakeSession(b), x)
    {
      FieldExtends(b, x);
      var b1 := TakeField(b).rest;
      CountedExtends(TakeWish, b1, x);
      CountedExtends(TakeMessage, TakeCounted(TakeWish, b1).rest, x);
    }
  }

  lemma TablesExtend(b: Bytes, x: Bytes)
    ensures TakeTables(b).Got? ==> TakeTables(b + x) == Plus(TakeTables(b), x)
  {
    RetainedExtends();
    SessionExtends();
    CountedExtends(TakeRetained, b, x);
    if TakeCounted(TakeRetained, b).Got? {
      CountedExtends(TakeSession, TakeCounted(TakeRetained, b).rest, x);
    }
  }

  // ---- What is read always fits

  ghost predicate Gives<T(!new)>(take: Bytes -> Read<T>, fits: T -> bool) {
    forall b :: take(b).Got? ==> fits(take(b).value)
  }

  lemma FieldFits(b: Bytes)
    ensures TakeU16(b).Got? ==> TakeU16(b).value <= U16_MAX
    ensures TakeField(b).Got? ==> |TakeField(b).value| <= U16_MAX
  {
  }

  lemma WishFits()
    ensures Gives(TakeWish, FitsWish)
  {
    forall b | TakeWish(b).Got?
      ensures FitsWish(TakeWish(b).value)
    {
      FieldFits(b);
    }
  }

  lemma MessageFits()
    ensures Gives(TakeMessage, FitsMessage)
  {
    forall b | TakeMessage(b).Got?
      ensures FitsMessage(TakeMessage(b).value)
    {
      FieldFits(b);
      FieldFits(TakeField(b).rest);
    }
  }

  lemma {:induction false} ManyFit<T(!new)>(take: Bytes -> Read<T>, fits: T -> bool, b: Bytes, n: nat)
    requires Gives(take, fits)
    ensures var r := TakeMany(take, b, n);
      r.Got? ==> |r.value| == n && forall x :: x in r.value ==> fits(x)
  {
    if n > 0 {
      ManyFit(take, fits, b, n - 1);
    }
  }

  lemma CountedFit<T(!new)>(take: Bytes -> Read<T>, fits: T -> bool, b: Bytes)
    requires Gives(take, fits)
    ensures var r := TakeCounted(take, b);
      r.Got? ==> |r.value| <= U16_MAX && forall x :: x in r.value ==> fits(x)
  {
    FieldFits(b);
    if TakeU16(b).Got? {
      ManyFit(take, fits, TakeU16(b).rest, TakeU16(b).value);
    }
  }

  lemma SessionFits()
    ensures Gives(TakeSession, FitsSession)
  {
    WishFits();
    MessageFits();
    forall b | TakeSession(b).Got?
      ensures FitsSession(TakeSession(b).value)
    {
      FieldFits(b);
      var b1 := TakeField(b).rest;
      CountedFit(TakeWish, FitsWish, b1);
      CountedFit(TakeMessage, FitsMessage, TakeCounted(TakeWish, b1).rest);
    }
  }

  lemma TablesFit(b: Bytes)
    ensures var r := TakeTables(b); r.Got? ==> Fits(r.value.0, r.value.1)
  {
    MessageFits();
    assert Gives(TakeRetained, FitsRetained);
    SessionFits();
    CountedFit(TakeRetained, FitsRetained, b);
    if TakeCounted(TakeRetained, b).Got? {
      CountedFit(TakeSession, FitsSession, TakeCounted(TakeRetained, b).rest);
    }
  }

  // ---- Main results

  lemma HeaderOf(tables: Bytes)
    ensures var file := STATE_MAGIC + [STATE_VERSION] + tables;
      GoodHeader(file) && file[11..] == tables
  {
    var file := STATE_MAGIC + [STATE_VERSION] + tables;
    assert file[..10] == STATE_MAGIC;
    assert file[11..] == tables;
  }

  lemma FitsComesBack(
    retained: map<Bytes, Retained>, sessions: map<Bytes, Stored>, ro: seq<Keyed<Retained>>, so: seq<Keyed<Stored>>)
    requires LaysOut(retained, ro) && LaysOut(sessions, so) && Fits(ro, so)
    ensures Parse(FileBytes(ro, so)) == Some((retained, sessions))
  {
    HeaderOf(TableBytes(ro, so));
    ReadTables(ro, so, []);
    assert TableBytes(ro, so) + [] == TableBytes(ro, so);
    TableRoundTrip(retained, ro);
    TableRoundTrip(sessions, so);
  }

  /** Whatever is read from any file fits the format. */
  lemma ParsedFits(
    data: Bytes, retained: map<Bytes, Retained>, sessions: map<Bytes, Stored>, ro: seq<Keyed<Retained>>,
    so: seq<Keyed<Stored>>)
    requires Parse(data) == Some((retained, sessions))
    requires LaysOut(retained, ro) && LaysOut(sessions, so) && |ro| == |retained| && |so| == |sessions|
    ensures Fits(ro, so)
  {
    var tables := TakeTables(data[11..]);
    TablesFit(data[11..]);
    TableFrom(tables.value.0);
    TableFrom(tables.value.1);
    forall e | e in ro
      ensures FitsRetained(e)
    {
      assert e in tables.value.0;
    }
    forall e | e in so
      ensures FitsSession(e)
    {
      assert e in tables.value.1;
    }
  }

  lemma FitsIsStorable(
    retained: map<Bytes, Retained>, sessions: map<Bytes, Stored>, ro: seq<Keyed<Retained>>, so: seq<Keyed<Stored>>)
    requires LaysOut(retained, ro) && LaysOut(sessions, so) && |ro| == |retained| && |so| == |sessions|
    ensures Fits(ro, so) <==> Storable(retained, sessions)
  {
    FitsInAnyOrder(retained, ro, FitsRetained);
    FitsInAnyOrder(sessions, so, FitsSession);
    assert (forall e :: e in ro ==> FitsRetained(e))
      <==> forall t :: t in retained ==> FitsRetained(Keyed(t, retained[t]));
    assert (forall e :: e in so ==> FitsSession(e))
      <==> forall cid :: cid in sessions ==> FitsSession(Keyed(cid, sessions[cid]));
  }

  /**
   What the file gives back is what was saved, in any order of iteration, exactly when every
   count and length fits 16 bits and every QoS is at most 2.
   */
  lemma RoundTripExactly(
    retained: map<Bytes, Retained>, sessions: map<Bytes, Stored>, ro: seq<Keyed<Retained>>, so: seq<Keyed<Stored>>)
    requires LaysOut(retained, ro) && LaysOut(sessions, so) && |ro| == |retained| && |so| == |sessions|
    ensures Parse(FileBytes(ro, so)) == Some((retained, sessions)) <==> Storable(retained, sessions)
  {
    FitsIsStorable(retained, sessions, ro, so);
    if Fits(ro, so) {
      FitsComesBack(retained, sessions, ro, so);
    } else if Parse(FileBytes(ro, so)) == Some((retained, sessions)) {
      ParsedFits(FileBytes(ro, so), retained, sessions, ro, so);
    }
  }

  lemma PlusIsLonger<T>(r: Read<T>, x: Bytes)
    ensures r.Got? ==> |Plus(r, x).rest| >= |x|
  {
  }

  /** A file cut short anywhere is refused as a whole. */
  lemma TruncatedFileIsRefused(ro: seq<Keyed<Retained>>, so: seq<Keyed<Stored>>, k: nat)
    requires Fits(ro, so) && k < |FileBytes(ro, so)|
    ensures Parse(FileBytes(ro, so)[..k]) == None
  {
    var tables := TableBytes(ro, so);
    var file := FileBytes(ro, so);
    HeaderOf(tables);
    if k >= 11 {
      var cut, x := tables[..k - 11], tables[k - 11..];
      assert file[..k][11..] == cut;
      assert tables == cut + x;
      TablesExtend(cut, x);
      ReadTables(ro, so, []);
      assert tables + [] == tables;
      PlusIsLonger(TakeTables(cut), x);
    }
  }

  // ---- The source's reader, with its position

  /** `take`: the next `n` bytes and the position after them. */
  method TakeAt(data: Bytes, pos: nat, n: nat) returns (ok: bool, f: Bytes, next: nat)
    requires pos <= |data|
    ensures ok ==> next <= |data| && Take(data[pos..], n) == Got(f, data[next..])
    ensures !ok ==> Take(data[pos..], n) == Short
  {
    if pos + n > |data| {
      return false, [], pos;
    }
    SliceOfDrop(data, pos, 0, n);
    DropDrop(data, pos, n);
    return true, data[pos..pos + n], pos + n;
  }

  method TakeFieldAt(data: Bytes, pos: nat) returns (ok: bool, f: Bytes, next: nat)
    requires pos <= |data|
    ensures ok ==> next <= |data| && TakeField(data[pos..]) == Got(f, data[next..])
    ensures !ok ==> TakeField(data[pos..]) == Short
  {
    var n;
    ok, n, next := TakeU16At(data, pos);
    if !ok {
      return false, [], pos;
    }
    ok, f, next := TakeAt(data, next, n);
  }

  method TakeQosAt(data: Bytes, pos: nat) returns (ok: bool, q: Wire.QoS, next: nat)
    requires pos <= |data|
    ensures ok ==> next <= |data| && TakeQos(data[pos..]) == Got(q, data[next..])
    ensures !ok ==> TakeQos(data[pos..]) == Short
  {
    var f;
    ok, f, next := TakeAt(data, pos, 1);
    if !ok || f[0] > 2 {
      return false, 0, pos;
    }
    q := f[0] as int;
  }

  method TakeMessageAt(data: Bytes, pos: nat) returns (r: Option<Message>, next: nat)
    requires pos <= |data|
    ensures r.Some? ==> next <= |data| && TakeMessage(data[pos..]) == Got(r.value, data[next..])
    ensures r.None? ==> TakeMessage(data[pos..]) == Short
  {
    var ok, topic, payload, q;
    ok, topic, next := TakeFieldAt(data, pos);
    if !ok {
      return None, pos;
    }
    ok, payload, next := TakeFieldAt(data, next);
    if !ok {
      return None, pos;
    }
    ok, q, next := TakeQosAt(data, next);
    if !ok {
      return None, pos;
    }
    r := Some(Message(topic, payload, q));
  }

  method TakeWishAt(data: Bytes, pos: nat) returns (r: Option<Wish>, next: nat)
    requires pos <= |data|
    ensures r.Some? ==> next <= |data| && TakeWish(data[pos..]) == Got(r.value, data[next..])
    ensures r.None? ==> TakeWish(data[pos..]) == Short
  {
    var ok, filter, q;
    ok, filter, next := TakeFieldAt(data, pos);
    if !ok {
      return None, pos;
    }
    ok, q, next := TakeQosAt(data, next);
    if !ok {
      return None, pos;
    }
    r := Some(Wish(filter, q));
  }

  /** One thing more is read of a row, or the whole row fails. */
  lemma ManyStep<T>(take: Bytes -> Read<T>, b: Bytes, i: nat, n: nat, xs: seq<T>, rest: Bytes)
    requires i < n && TakeMany(take, b, i) == Got(xs, rest)
    ensures take(rest).Got? ==> TakeMany(take, b, i + 1) == Got(xs + [take(rest).value], take(rest).rest)
    ensures take(rest) == Short ==> TakeMany(take, b, n) == Short
  {
    if take(rest) == Short {
      ManyShort(take, b, i + 1, n);
    }
  }

  lemma {:induction false} ManyShort<T>(take: Bytes -> Read<T>, b: Bytes, k: nat, n: nat)
    requires k <= n && TakeMany(take, b, k) == Short
    ensures TakeMany(take, b, n) == Short
    decreases n
  {
    if k < n {
      ManyShort(take, b, k, n - 1);
    }
  }

  method TakeU16At(data: Bytes, pos: nat) returns (ok: bool, n: nat, next: nat)
    requires pos <= |data|
    ensures ok ==> next <= |data| && TakeU16(data[pos..]) == Got(n, data[next..])
    ensures !ok ==> TakeU16(data[pos..]) == Short
  {
    var f;
    ok, f, next := TakeAt(data, pos, 2);
    n := if ok then FromBe16(f[1], f[0]) else 0;
  }

  method TakeMessagesAt(data: Bytes, pos: nat) returns (r: Option<seq<Message>>, next: nat)
    requires pos <= |data|
    ensures r.Some? ==> next <= |data| && TakeCounted(TakeMessage, data[pos..]) == Got(r.value, data[next..])
    ensures r.None? ==> TakeCounted(TakeMessage, data[pos..]) == Short
  {
    var ok, count, start := TakeU16At(data, pos);
    if !ok {
      return None, pos;
    }
    ghost var row := data[start..];
    var ms: seq<Message> := [];
    next := start;
    for i := 0 to count
      invariant next <= |data| && TakeMany(TakeMessage, row, i) == Got(ms, data[next..])
    {
      ManyStep(TakeMessage, row, i, count, ms, data[next..]);
      var m, after := TakeMessageAt(data, next);
      if m.None? {
        return None, pos;
      }
      ms, next := ms + [m.value], after;
    }
    r := Some(ms);
  }

  method TakeWishesAt(data: Bytes, pos: nat) returns (r: Option<seq<Wish>>, next: nat)
    requires pos <= |data|
    ensures r.Some? ==> next <= |data| && TakeCounted(TakeWish, data[pos..]) == Got(r.value, data[next..])
    ensures r.None? ==> TakeCounted(TakeWish, data[pos..]) == Short
  {
    var ok, count, start := TakeU16At(data, pos);
    if !ok {
      return None, pos;
    }
    ghost var row := data[start..];
    var ws: seq<Wish> := [];
    next := start;
    for i := 0 to count
      invariant next <= |data| && TakeMany(TakeWish, row, i) == Got(ws, data[next..])
    {
      ManyStep(TakeWish, row, i, count, ws, data[next..]);
      var w, after := TakeWishAt(data, next);
      if w.None? {
        return None, pos;
      }
      ws, next := ws + [w.value], after;
    }
    r := Some(ws);
  }

  method TakeSessionAt(data: Bytes, pos: nat) returns (r: Option<Keyed<Stored>>, next: nat)
    requires pos <= |data|
    ensures r.Some? ==> next <= |data| && TakeSession(data[pos..]) == Got(r.value, data[next..])
    ensures r.None? ==> TakeSession(data[pos..]) == Short
  {
    var ok, cid, subs, offline;
    ok, cid, next := TakeFieldAt(data, pos);
    if !ok {
      return None, pos;
    }
    subs, next := TakeWishesAt(data, next);
    if subs.None? {
      return None, pos;
    }
    offline, next := TakeMessagesAt(data, next);
    if offline.None? {
      return None, pos;
    }
    r := Some(Keyed(cid, Stored(subs.value, offline.value)));
  }

  lemma TableSnoc<V>(es: seq<Keyed<V>>, e: Keyed<V>)
    ensures Table(es + [e]) == Table(es)[e.key := e.value]
  {
    assert (es + [e])[..|es|] == es;
  }

  /** The loop over the retained entries, which fills the table as it goes. */
  method TakeRetainedTable(data: Bytes, pos: nat) returns (r: Option<map<Bytes, Retained>>, next: nat)
    requires pos <= |data|
    ensures match TakeCounted(TakeRetained, data[pos..])
      case Short => r == None
      case Got(es, rest) => r == Some(Table(es)) && next <= |data| && rest == data[next..]
  {
    var ok, count, start := TakeU16At(data, pos);
    if !ok {
      return None, pos;
    }
    ghost var row := data[start..];
    var table: map<Bytes, Retained> := map[];
    ghost var es: seq<Keyed<Retained>> := [];
    next := start;
    for i := 0 to count
      invariant next <= |data| && TakeMany(TakeRetained, row, i) == Got(es, data[next..])
      invariant table == Table(es)
    {
      ManyStep(TakeRetained, row, i, count, es, data[next..]);
      var m, after := TakeMessageAt(data, next);
      if m.None? {
        return None, pos;
      }
      ghost var e := Keyed(m.value.topic, Retained(m.value.payload, m.value.qos));
      TableSnoc(es, e);
      table := table[m.value.topic := Retained(m.value.payload, m.value.qos)];
      es, next := es + [e], after;
    }
    r := Some(table);
  }

  /** The loop over the sessions. */
  method TakeSessionTable(data: Bytes, pos: nat) returns (r: Option<map<Bytes, Stored>>, next: nat)
    requires pos <= |data|
    ensures match TakeCounted(TakeSession, data[pos..])
      case Short => r == None
      case Got(es, rest) => r == Some(Table(es)) && next <= |data| && rest == data[next..]
  {
    var ok, count, start := TakeU16At(data, pos);
    if !ok {
      return None, pos;
    }
    ghost var row := data[start..];
    var table: map<Bytes, Stored> := map[];
    ghost var es: seq<Keyed<Stored>> := [];
    next := start;
    for i := 0 to count
      invariant next <= |data| && TakeMany(TakeSession, row, i) == Got(es, data[next..])
      invariant table == Table(es)
    {
      ManyStep(TakeSession, row, i, count, es, data[next..]);
      var e, after := TakeSessionAt(data, next);
      if e.None? {
        return None, pos;
      }
      TableSnoc(es, e.value);
      table := table[e.value.key := e.value.value];
      es, next := es + [e.value], after;
    }
    r := Some(table);
  }

  method Deserialize(data: Bytes) returns (r: Option<(map<Bytes, Retained>, map<Bytes, Stored>)>)
    ensures r == Parse(data)
  {
    if |data| < |STATE_MAGIC| + 1 {
      return None;
    }
    if data[..|STATE_MAGIC|] != STATE_MAGIC {
      return None;
    }
    if data[|STATE_MAGIC|] != STATE_VERSION {
      return None;
    }
    var retained, pos := TakeRetainedTable(data, 11);
    if retained.None? {
      return None;
    }
    var sessions, end := TakeSessionTable(data, pos);
    if sessions.None? {
      return None;
    }
    r := Some((retained.value, sessions.value));
  }
}
