/** The table-registry actions of the simulation server: normalising a table
    argument, updating the in-memory backend's registry, and the JSON text of the
    messages put on the send queue. */
module Actions {
  import opened Strings
  import opened PyJson

  // ---------------------------------------------------------------------------
  // Table arguments

  /** The argument of register_tables / deregister_tables, by its Python type: a
      str, a Set of names, a non-string Sequence of names, or anything else (kept
      by the qualified name of its class). */
  datatype TablesArg =
    | StrArg(name: string)
    | SetArg(tables: set<string>)
    | SequenceArg(items: seq<string>)
    | OtherArg(typeName: string)

  datatype Result<T> = Ok(value: T) | ValueError(message: string)

  function WrongTypeMessage(typeName: string): string
  {
    "cannot register tables because it has the wrong type: <class '" + typeName + "'>"
  }

  /** ensure_tables: a Set is returned as it is, a str becomes the one-name set, a
      Sequence the set of its elements; any other type raises ValueError. */
  function EnsureTables(tables: TablesArg): (r: Result<set<string>>)
    ensures r.Ok? <==> !tables.OtherArg?
    ensures tables.StrArg? ==> r.value == {tables.name}
    ensures tables.SetArg? ==> r.value == tables.tables
    ensures tables.SequenceArg? ==> forall t :: t in r.value <==> t in tables.items
    ensures tables.OtherArg? ==> r.message == WrongTypeMessage(tables.typeName)
  {
    match tables
    case SetArg(ts) => Ok(ts)
    case StrArg(s) => Ok({s})
    case SequenceArg(xs) => Ok(set x | x in xs)
    case OtherArg(name) => ValueError(WrongTypeMessage(name))
  }

  /** The one-character strings of s, the elements Python would see if it iterated
      the string as a sequence. */
  function Characters(s: string): (r: seq<string>)
    ensures |r| == |s| && forall i :: 0 <= i < |s| ==> r[i] == [s[i]]
  {
    seq(|s|, i requires 0 <= i < |s| => [s[i]])
  }

  /** A str is one table name: unless it has exactly one character, its result
      differs from that of the sequence of its characters. */
  lemma StringIsOneTable(s: string)
    requires |s| != 1
    ensures EnsureTables(StrArg(s)) != EnsureTables(SequenceArg(Characters(s)))
  {
    var chars := EnsureTables(SequenceArg(Characters(s))).value;
    if |s| == 0 {
      assert s !in chars;
    } else {
      assert [s[0]] in chars && [s[0]] != s;
    }
  }

  /** The result is a normal form: feeding it back as a Set returns it unchanged. */
  lemma EnsureTablesIdempotent(tables: TablesArg)
    requires EnsureTables(tables).Ok?
    ensures EnsureTables(SetArg(EnsureTables(tables).value)) == EnsureTables(tables)
  {
  }

  /** A sequence's result depends only on which names it holds, not on their order
      or repetitions. */
  lemma SequenceOrderIrrelevant(xs: seq<string>, ys: seq<string>)
    requires forall t :: t in xs <==> t in ys
    ensures EnsureTables(SequenceArg(xs)) == EnsureTables(SequenceArg(ys))
  {
    var a := EnsureTables(SequenceArg(xs)).value;
    var b := EnsureTables(SequenceArg(ys)).value;
    assert forall t :: t in a <==> t in b;
    assert a == b;
  }

  // ---------------------------------------------------------------------------
  // The in-memory backend's registry

  class MemoryBackend {
    var registry: set<string>

    constructor (registry: set<string>)
      ensures this.registry == registry
    {
      this.registry := registry;
    }

    /** register_tables: the registry becomes its union with the tables. */
    method RegisterTables(tables: TablesArg) returns (r: Result<set<string>>)
      modifies this
      ensures r == EnsureTables(tables)
      ensures r.Ok? ==> registry == old(registry) + r.value
      ensures r.ValueError? ==> registry == old(registry)
    {
      r := EnsureTables(tables);
      if r.Ok? {
        registry := registry + r.value;
      }
    }

    /** deregister_tables: the registry loses the tables; absent names are ignored. */
    method DeregisterTables(tables: TablesArg) returns (r: Result<set<string>>)
      modifies this
      ensures r == EnsureTables(tables)
      ensures r.Ok? ==> registry == old(registry) - r.value
      ensures r.ValueError? ==> registry == old(registry)
    {
      r := EnsureTables(tables);
      if r.Ok? {
        registry := registry - r.value;
      }
    }
  }

  /** Registering the same tables twice leaves the registry as registering once. */
  method RegisterTwiceIsOnce(initial: set<string>, tables: TablesArg) returns (once: MemoryBackend, twice: MemoryBackend)
    ensures once.registry == twice.registry
    ensures EnsureTables(tables).Ok? ==> once.registry == initial + EnsureTables(tables).value
  {
    once := new MemoryBackend(initial);
    var r1 := once.RegisterTables(tables);
    twice := new MemoryBackend(initial);
    var r2 := twice.RegisterTables(tables);
    var r3 := twice.RegisterTables(tables);
  }

  /** Registering names that were absent and deregistering them restores the
      registry. */
  method RegisterThenDeregister(initial: set<string>, tables: TablesArg) returns (b: MemoryBackend)
    requires EnsureTables(tables).Ok? && EnsureTables(tables).value !! initial
    ensures b.registry == initial
  {
    b := new MemoryBackend(initial);
    var r1 := b.RegisterTables(tables);
    var r2 := b.DeregisterTables(tables);
  }

  /** Deregistering names that are not registered changes nothing. */
  method DeregisterAbsent(initial: set<string>, tables: TablesArg) returns (b: MemoryBackend)
    requires EnsureTables(tables).Ok? && EnsureTables(tables).value !! initial
    ensures b.registry == initial
  {
    b := new MemoryBackend(initial);
    var r := b.DeregisterTables(tables);
  }

  /** An argument of the wrong type raises and leaves the registry as it was. */
  method WrongTypeRefused(initial: set<string>, typeName: string) returns (r: Result<set<string>>, b: MemoryBackend)
    ensures r == ValueError("cannot register tables because it has the wrong type: <class '" + typeName + "'>")
    ensures b.registry == initial
  {
    b := new MemoryBackend(initial);
    r := b.RegisterTables(OtherArg(typeName));
  }

  // ---------------------------------------------------------------------------
  // sorted() of a set of names

  predicate IsLeast(s: set<string>, m: string)
  {
    m in s && forall y :: y in s ==> m == y || LexLess(m, y)
  }

  lemma {:induction false} LeastExists(s: set<string>)
    requires s != {}
    ensures exists m :: IsLeast(s, m)
    decreases |s|
  {
    var x :| x in s;
    var rest := s - {x};
    if rest == {} {
      assert s == {x};
      assert IsLeast(s, x);
    } else {
      LeastExists(rest);
      var m :| IsLeast(rest, m);
      if LexLess(x, m) {
        forall y | y in s ensures x == y || LexLess(x, y) {
          if y != x {
            if y != m {
              LexLessTransitive(x, m, y);
            }
          }
        }
        assert IsLeast(s, x);
      } else {
        if x != m {
          LexLessTotal(x, m);
        }
        assert IsLeast(s, m);
      }
    }
  }

  lemma LeastUnique(s: set<string>)
    ensures forall a, b :: IsLeast(s, a) && IsLeast(s, b) ==> a == b
  {
    forall a, b | IsLeast(s, a) && IsLeast(s, b) ensures a == b {
      if a != b {
        assert LexLess(a, b) && LexLess(b, a);
        LexLessTransitive(a, b, a);
        LexLessIrreflexive(a);
      }
    }
  }

  /** sorted(names): the names in strictly ascending order, each exactly once. */
  function Sorted(s: set<string>): (r: seq<string>)
    ensures StrictlyAscending(r)
    ensures forall x :: x in r <==> x in s
    ensures |r| == |s|
    decreases |s|
  {
    if s == {} then []
    else
      LeastExists(s);
      LeastUnique(s);
      var m :| IsLeast(s, m);
      var rest := Sorted(s - {m});
      LeastBelowRest(s, m, rest);
      ConsAscending(m, rest);
      [m] + rest
  }

  /** The least name is below every other name of the set. */
  lemma LeastBelowRest(s: set<string>, m: string, rest: seq<string>)
    requires IsLeast(s, m)
    requires forall x :: x in rest <==> x in s - {m}
    ensures forall j :: 0 <= j < |rest| ==> LexLess(m, rest[j])
  {
    forall j | 0 <= j < |rest| ensures LexLess(m, rest[j]) {
      assert rest[j] in s - {m};
    }
  }

  /** A name below every element of an ascending listing extends it at the front. */
  lemma ConsAscending(m: string, rest: seq<string>)
    requires StrictlyAscending(rest)
    requires forall j :: 0 <= j < |rest| ==> LexLess(m, rest[j])
    ensures StrictlyAscending([m] + rest)
  {
    var xs := [m] + rest;
    forall i, j | 0 <= i < j < |xs| ensures LexLess(xs[i], xs[j]) {
      assert xs[j] == rest[j - 1];
      if i > 0 {
        assert xs[i] == rest[i - 1];
      }
    }
  }

  /** sorted() of a set starts with its least name. */
  lemma SortedCons(s: set<string>, m: string)
    requires IsLeast(s, m)
    ensures Sorted(s) == [m] + Sorted(s - {m})
  {
    LeastUnique(s);
  }

  /** The head of an ascending listing of a set is the set's least name, and the
      tail lists the rest. */
  lemma SplitListing(xs: seq<string>, s: set<string>)
    requires xs != [] && StrictlyAscending(xs)
    requires forall x :: x in xs <==> x in s
    ensures IsLeast(s, xs[0])
    ensures StrictlyAscending(xs[1..])
    ensures forall x :: x in xs[1..] <==> x in s - {xs[0]}
  {
    var m := xs[0];
    forall y | y in s ensures m == y || LexLess(m, y) {
      var j :| 0 <= j < |xs| && xs[j] == y;
      if j > 0 {
        assert LexLess(xs[0], xs[j]);
      }
    }
    var rest := xs[1..];
    forall i, j | 0 <= i < j < |rest| ensures LexLess(rest[i], rest[j]) {
      assert rest[i] == xs[i + 1] && rest[j] == xs[j + 1];
    }
    forall x ensures x in rest <==> x in s - {m} {
      if x in rest {
        var j :| 0 <= j < |rest| && rest[j] == x;
        assert LexLess(xs[0], xs[j + 1]);
        LexLessIrreflexive(x);
      }
      if x in s - {m} {
        var j :| 0 <= j < |xs| && xs[j] == x;
        assert rest[j - 1] == x;
      }
    }
  }

  /** The ascending listing is unique: any strictly ascending sequence of exactly
      the names of s is sorted(s). */
  lemma {:induction false} AscendingListingIsSorted(xs: seq<string>, s: set<string>)
    requires StrictlyAscending(xs)
    requires forall x :: x in xs <==> x in s
    ensures xs == Sorted(s)
    decreases |xs|
  {
    if xs != [] {
      SplitListing(xs, s);
      AscendingListingIsSorted(xs[1..], s - {xs[0]});
      SortedCons(s, xs[0]);
      assert xs == [xs[0]] + xs[1..];
    }
  }

  // ---------------------------------------------------------------------------
  // Messages

  /** send_message: the envelope `{"event":"E","params":P,"data":D}`, E placed
      without escaping, P the json.dumps of params, D the data text as it is. */
  function SendMessage(event: string, params: Json, data: string): string
  {
    Envelope(event, Dumps(params), data)
  }

  /** The format string of send_message, filled in. */
  function Envelope(event: string, params: string, data: string): string
  {
    "{\"event\":\"" + event + "\",\"params\":" + params + ",\"data\":" + data + "}"
  }

  /** A message with the defaults: params None and data 'null'. */
  function SendEvent(event: string): string
  {
    SendMessage(event, JNull, "null")
  }

  /** A JSON object in compact form (separators "," and ":") from keys and the
      JSON texts of their values. */
  function CompactObject(members: seq<(string, string)>): string
  {
    "{" + JoinWith(",", seq(|members|, k requires 0 <= k < |members| => Quote(members[k].0) + ":" + members[k].1)) + "}"
  }

  lemma CompactObjectOfThree(k1: string, v1: string, k2: string, v2: string, k3: string, v3: string)
    ensures CompactObject([(k1, v1), (k2, v2), (k3, v3)]) ==
      "{" + (Quote(k1) + ":" + v1) + "," + (Quote(k2) + ":" + v2) + "," + (Quote(k3) + ":" + v3) + "}"
  {
    var members := [(k1, v1), (k2, v2), (k3, v3)];
    var texts := seq(|members|, k requires 0 <= k < |members| => Quote(members[k].0) + ":" + members[k].1);
    assert texts[1..][1..] == [texts[2]];
    assert JoinWith(",", texts[1..][1..]) == texts[2];
    assert JoinWith(",", texts[1..]) == texts[1] + "," + texts[2];
  }

  /** Strings that agree around a middle part are equal exactly when the middles are. */
  lemma MiddleCancels(head: string, a: string, b: string, l1: string, p: string, l2: string, d: string, close: string)
    ensures head + a + l1 + p + l2 + d + close == head + b + l1 + p + l2 + d + close <==> a == b
  {
    var ta := head + a + l1 + p + l2 + d + close;
    var tb := head + b + l1 + p + l2 + d + close;
    if ta == tb {
      assert |a| == |b|;
      assert a == ta[|head|..|head| + |a|];
      assert b == tb[|head|..|head| + |b|];
    }
  }

  lemma Regroup(o: string, k1: string, c: string, q: string, x: string, comma: string,
                k2: string, p: string, k3: string, d: string, close: string)
    ensures o + (k1 + c + (q + x + q)) + comma + (k2 + c + p) + comma + (k3 + c + d) + close ==
      (o + k1 + c + q) + x + (q + comma + k2 + c) + p + (comma + k3 + c) + d + close
  {
  }

  /** A name that needs no escaping is quoted as it is. */
  lemma QuotePlain(s: string)
    requires AllPlain(s)
    ensures Quote(s) == "\"" + s + "\""
  {
    EscapeIdentityIffPlain(s);
  }

  /** The member names are quoted as they are. */
  lemma QuotedKeys()
    ensures Quote("event") == "\"event\"" && Quote("params") == "\"params\"" && Quote("data") == "\"data\""
  {
    QuotedEvent();
    QuotedParams();
    QuotedData();
  }

  lemma QuotedEvent()
    ensures Quote("event") == "\"event\""
  {
    QuotedName("event");
  }

  lemma QuotedParams()
    ensures Quote("params") == "\"params\""
  {
    QuotedName("params");
  }

  lemma QuotedData()
    ensures Quote("data") == "\"data\""
  {
    QuotedName("data");
  }

  lemma QuotedName(s: string)
    requires s == "event" || s == "params" || s == "data"
    ensures Quote(s) == "\"" + s + "\""
  {
    assert AllPlain(s);
    QuotePlain(s);
  }

  /** The compact object of event, params and data, written out, for an event
      whose JSON text is the quoted x. */
  lemma CompactEnvelopeText(x: string, params: string, data: string)
    ensures CompactObject([("event", "\"" + x + "\""), ("params", params), ("data", data)]) ==
      "{\"event\":\"" + x + "\",\"params\":" + params + ",\"data\":" + data + "}"
  {
    QuotedKeys();
    CompactObjectOfThree("event", "\"" + x + "\"", "params", params, "data", data);
    Regroup("{", "\"event\"", ":", "\"", x, ",", "\"params\"", params, "\"data\"", data, "}");
    EnvelopePieces();
  }

  /** The fixed pieces of the envelope, each assembled from its key. */
  lemma EnvelopePieces()
    ensures "{" + "\"event\"" + ":" + "\"" == "{\"event\":\""
    ensures "\"" + "," + "\"params\"" + ":" == "\",\"params\":"
    ensures "," + "\"data\"" + ":" == ",\"data\":"
  {
  }

  /** The envelope is the compact JSON object with members event, params and data
      exactly when the event name needs no escaping. */
  lemma EnvelopeIsCompactObject(event: string, params: string, data: string)
    ensures Envelope(event, params, data) ==
      CompactObject([("event", Quote(event)), ("params", params), ("data", data)])
      <==> AllPlain(event)
  {
    CompactEnvelopeText(Escape(event), params, data);
    MiddleCancels("{\"event\":\"", event, Escape(event), "\",\"params\":", params, ",\"data\":", data, "}");
    EscapeIdentityIffPlain(event);
  }

  /** The registry message: the sorted registry as a JSON list. */
  function RegistryMessage(registry: set<string>): string
  {
    SendMessage("registry", JNull, Dumps(StringList(Sorted(registry))))
  }

  /** The table_names message: the sorted table names as a JSON list. */
  function TableNamesMessage(tables: set<string>): string
  {
    SendMessage("table_names", JNull, Dumps(StringList(Sorted(tables))))
  }

  /** Whatever order the names were registered in, the registry message lists them
      as any strictly ascending listing of them would. */
  lemma RegistryMessageListsAscending(registry: set<string>, xs: seq<string>)
    requires StrictlyAscending(xs) && forall x :: x in xs <==> x in registry
    ensures RegistryMessage(registry) == SendMessage("registry", JNull, Dumps(StringList(xs)))
  {
    AscendingListingIsSorted(xs, registry);
  }

  /** The table_names message lists the file backend's tables as any strictly
      ascending listing of them would. */
  lemma TableNamesMessageListsAscending(tables: set<string>, xs: seq<string>)
    requires StrictlyAscending(xs) && forall x :: x in xs <==> x in tables
    ensures TableNamesMessage(tables) == SendMessage("table_names", JNull, Dumps(StringList(xs)))
  {
    AscendingListingIsSorted(xs, tables);
  }

  /** table_data_as_json: the frame's JSON text when the query found the table
      (`frame` stands for the result of the query and to_json), otherwise the
      quoted sentence "<table> is not available.", built without escaping. */
  function TableDataAsJson(table: string, frame: Option<string>): string
  {
    match frame
    case Some(text) => text
    case None => "\"" + table + " is not available.\""
  }

  /** The fallback is the JSON string of the sentence exactly when the table name
      needs no escaping. */
  lemma FallbackIsJsonString(table: string)
    ensures TableDataAsJson(table, None) == Dumps(JString(table + " is not available.")) <==> AllPlain(table)
  {
    var sentence := table + " is not available.";
    EscapeIdentityIffPlain(sentence);
    SentencePlainIffTable(table);
    WrapCancels(sentence, Escape(sentence), "\"");
  }

  /** The sentence needs no escaping exactly when the table name needs none. */
  lemma SentencePlainIffTable(table: string)
    ensures AllPlain(table + " is not available.") <==> AllPlain(table)
  {
    var tail := " is not available.";
    assert AllPlain(tail);
    AllPlainAppend(table, tail);
  }

  lemma AllPlainAppend(a: string, b: string)
    ensures AllPlain(a + b) <==> AllPlain(a) && AllPlain(b)
  {
    if AllPlain(a + b) {
      forall i | 0 <= i < |a| ensures Plain(a[i]) {
        assert (a + b)[i] == a[i];
      }
      forall i | 0 <= i < |b| ensures Plain(b[i]) {
        assert (a + b)[|a| + i] == b[i];
      }
    }
  }

  /** Wrapping in the same delimiter on both sides keeps strings apart. */
  lemma WrapCancels(a: string, b: string, q: string)
    ensures q + a + q == q + b + q <==> a == b
  {
    if q + a + q == q + b + q {
      assert |a| == |b|;
      assert a == (q + a + q)[|q|..|q| + |a|];
      assert b == (q + b + q)[|q|..|q| + |b|];
    }
  }

  /** The query conditions: a list of str, or None. */
  function CondsJson(conds: Option<seq<string>>): Json
  {
    match conds
    case None => JNull
    case Some(cs) => StringList(cs)
  }

  /** send_table_data's message: params echo the table, conditions and orientation;
      data is table_data_as_json. */
  function TableDataMessage(table: string, conds: Option<seq<string>>, orient: string, frame: Option<string>): string
  {
    SendMessage("table_data",
      JObject([("table", JString(table)), ("conds", CondsJson(conds)), ("orient", JString(orient))]),
      TableDataAsJson(table, frame))
  }

  /** send_table_data with its defaults: conds None and orient 'split'. */
  function TableDataMessageDefault(table: string, frame: Option<string>): string
  {
    TableDataMessage(table, None, "split", frame)
  }

  /** echo's message: params {"s": s} and data json.dumps(s). */
  function EchoMessage(s: Json): string
  {
    SendMessage("echo", JObject([("s", s)]), Dumps(s))
  }

  /** The registry message is the compact JSON object of its event, params and data. */
  lemma RegistryMessageIsCompactObject(registry: set<string>)
    ensures RegistryMessage(registry) ==
      CompactObject([("event", Quote("registry")), ("params", "null"), ("data", Dumps(StringList(Sorted(registry))))])
  {
    assert AllPlain("registry");
    EnvelopeIsCompactObject("registry", "null", Dumps(StringList(Sorted(registry))));
  }

  /** echo's message is the compact JSON object of its event, params and data. */
  lemma EchoMessageIsCompactObject(s: Json)
    ensures EchoMessage(s) ==
      CompactObject([("event", Quote("echo")), ("params", Dumps(JObject([("s", s)]))), ("data", Dumps(s))])
  {
    assert AllPlain("echo");
    EnvelopeIsCompactObject("echo", Dumps(JObject([("s", s)])), Dumps(s));
  }

  /** send_table_data's message is the compact JSON object of its event, params and
      data. */
  lemma TableDataMessageIsCompactObject(table: string, conds: Option<seq<string>>, orient: string, frame: Option<string>)
    ensures TableDataMessage(table, conds, orient, frame) ==
      CompactObject([("event", Quote("table_data")),
                     ("params", Dumps(JObject([("table", JString(table)), ("conds", CondsJson(conds)), ("orient", JString(orient))]))),
                     ("data", TableDataAsJson(table, frame))])
  {
    assert AllPlain("table_data");
    EnvelopeIsCompactObject("table_data",
      Dumps(JObject([("table", JString(table)), ("conds", CondsJson(conds)), ("orient", JString(orient))])),
      TableDataAsJson(table, frame));
  }
}
