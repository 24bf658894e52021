/**
 * The record-preparation half of the atomic-insights pipeline
 * (src/tools/atomic_insights.py): the field table of a batch of records,
 * normalisation of one record against it, and the flattened text of a
 * record that the LLM passes read.
 */
module AtomicFields {
  import opened Json
  import opened Python
  import opened Codec

  // ------------------------------------------------------ schema unification

  /**
   * The default a field gets from the first value seen for it.  The int
   * test comes before the bool test, and a bool is an int, so a bool
   * field defaults to 0.
   */
  function DefaultFor(v: Json): Json {
    match v
    case JStr(_) => JStr("")
    case JArr(_) => JArr([])
    case JObj(_) => JObj([])
    case JInt(_) => JInt(0)
    case JBool(_) => JInt(0)
    case JFloat(_) => JFloat(0.0)
    case JNull => JNull
  }

  /** The inner loop of `collect_all_fields`: one record's members, in order. */
  function AddFields(table: Dict, ms: Dict): Dict
    decreases |ms|
  {
    if ms == [] then table
    else
      var t := AddFields(table, ms[..|ms| - 1]);
      var key := ms[|ms| - 1].0;
      if key in Keys(t) then t else Set(t, key, DefaultFor(ms[|ms| - 1].1))
  }

  /** `collect_all_fields(parsed_data)` */
  function Fields(records: seq<Dict>): Dict
    decreases |records|
  {
    if records == [] then [] else AddFields(Fields(records[..|records| - 1]), records[|records| - 1])
  }

  /** The first value given for `k` among the members, in order. */
  function FirstIn(ms: Dict, k: string): (r: Option<Json>)
    ensures r.Some? <==> k in Keys(ms)
    decreases |ms|
  {
    if ms == [] then None
    else
      var prior := FirstIn(ms[..|ms| - 1], k);
      assert Keys(ms) == Keys(ms[..|ms| - 1]) + {ms[|ms| - 1].0} by {
        forall j ensures j in Keys(ms) <==> j in Keys(ms[..|ms| - 1]) + {ms[|ms| - 1].0} {
          if j in Keys(ms) {
            var i :| 0 <= i < |ms| && ms[i].0 == j;
            if i < |ms| - 1 {
              assert ms[..|ms| - 1][i].0 == j;
            }
          }
        }
      }
      if prior.Some? then prior
      else if ms[|ms| - 1].0 == k then Some(ms[|ms| - 1].1)
      else None
  }

  /** The first value given for `k` in the batch: records in order, members in order. */
  function FirstSeen(records: seq<Dict>, k: string): Option<Json>
    decreases |records|
  {
    if records == [] then None
    else
      var prior := FirstSeen(records[..|records| - 1], k);
      if prior.Some? then prior else FirstIn(records[|records| - 1], k)
  }

  /** Every key of every record. */
  function AllKeys(records: seq<Dict>): set<string>
    decreases |records|
  {
    if records == [] then {} else AllKeys(records[..|records| - 1]) + Keys(records[|records| - 1])
  }

  function DefaultOf(first: Option<Json>): Option<Json> {
    match first
    case Some(v) => Some(DefaultFor(v))
    case None => None
  }

  lemma {:induction false} AddFieldsTable(table: Dict, ms: Dict, k: string)
    ensures Keys(AddFields(table, ms)) == Keys(table) + Keys(ms)
    ensures Lookup(AddFields(table, ms), k) ==
      if Lookup(table, k).Some? then Lookup(table, k) else DefaultOf(FirstIn(ms, k))
    decreases |ms|
  {
    if ms != [] {
      var p := ms[..|ms| - 1];
      var (key, v) := ms[|ms| - 1];
      var t := AddFields(table, p);
      AddFieldsTable(table, p, k);
      AddFieldsTable(table, p, key);
      LookupKeys(table, k);
      LookupKeys(t, k);
      assert Keys(ms) == Keys(p) + {key} by {
        assert FirstIn(ms, key).Some?;
        forall j ensures j in Keys(ms) <==> j in Keys(p) + {key} {
          assert FirstIn(ms, j).Some? <==> FirstIn(p, j).Some? || j == key;
        }
      }
      if key !in Keys(t) {
        LookupSet(t, key, DefaultFor(v), k);
        KeysSet(t, key, DefaultFor(v));
      }
    }
  }

  /**
   * The field table holds exactly the keys of the batch, and the default
   * of each is fixed by the first value seen for it.
   */
  lemma {:induction false} FieldsTable(records: seq<Dict>, k: string)
    ensures Keys(Fields(records)) == AllKeys(records)
    ensures Lookup(Fields(records), k) == DefaultOf(FirstSeen(records, k))
    decreases |records|
  {
    if records != [] {
      var p := records[..|records| - 1];
      FieldsTable(p, k);
      AddFieldsTable(Fields(p), records[|records| - 1], k);
      match FirstSeen(p, k)
      case Some(v) => {}
      case None => {}
    }
  }

  /** A field first seen with a bool gets the default 0, not `False`. */
  lemma {:induction false} BoolFieldDefaultsToZero(records: seq<Dict>, k: string, b: bool)
    requires FirstSeen(records, k) == Some(JBool(b))
    ensures Lookup(Fields(records), k) == Some(JInt(0))
  {
    FieldsTable(records, k);
  }

  /** `collect_all_fields`, with its two loops. */
  method CollectAllFields(records: seq<Dict>) returns (table: Dict)
    ensures table == Fields(records)
  {
    table := [];
    for i := 0 to |records|
      invariant table == Fields(records[..i])
    {
      assert records[..i + 1][..i] == records[..i];
      var item := records[i];
      ghost var before := table;
      for j := 0 to |item|
        invariant table == AddFields(before, item[..j])
      {
        assert item[..j + 1][..j] == item[..j];
        var (key, value) := item[j];
        if key !in Keys(table) {
          table := Set(table, key, DefaultFor(value));
        }
      }
      assert item[..|item|] == item;
    }
    assert records[..|records|] == records;
  }

  // ------------------------------------------------------------ normalisation

  /** The value a string-encoded field decodes to: the empty string gives `empty`. */
  function Decoded(c: Codec, v: Json, empty: Json): Result<Json> {
    match v
    case JStr(s) => if s == "" then Ok(empty) else Loads(c, s)
    case _ => Ok(v)
  }

  /** `if k in d and isinstance(d[k], str): d[k] = ...` */
  function DecodeField(c: Codec, d: Dict, k: string, empty: Json): Result<Dict> {
    match Lookup(d, k)
    case Some(JStr(s)) =>
      (match Decoded(c, JStr(s), empty)
       case Raise(e) => Raise(e)
       case Ok(v) => Ok(Set(d, k, v)))
    case _ => Ok(d)
  }

  /** The three string-encoded fields, and what their empty string stands for. */
  const EncodedFields: seq<(string, Json)> :=
    [("comments_data", JArr([])), ("author_data", JObj([])), ("author_recent_content", JArr([]))]

  /**
   * `normalize_data_fields(data_item, all_fields)`.  `comments_data` is
   * read without a membership test, so a record without it, in a batch
   * where no record has it, raises `KeyError`.
   */
  function Normalize(c: Codec, item: Dict, fields: Dict): Result<Dict> {
    var merged := Update(fields, item);
    if Lookup(merged, "comments_data").None? then Raise(Exc(KeyError, "'comments_data'"))
    else
      match DecodeField(c, merged, "comments_data", JArr([]))
      case Raise(e) => Raise(e)
      case Ok(m1) =>
        match DecodeField(c, m1, "author_data", JObj([]))
        case Raise(e) => Raise(e)
        case Ok(m2) => DecodeField(c, m2, "author_recent_content", JArr([]))
  }

  lemma {:induction false} DecodeFieldLookup(c: Codec, d: Dict, k: string, empty: Json, j: string)
    requires DecodeField(c, d, k, empty).Ok?
    ensures Keys(DecodeField(c, d, k, empty).value) == Keys(d)
    ensures Lookup(DecodeField(c, d, k, empty).value, j) ==
      if j == k && Lookup(d, k).Some? then Some(Decoded(c, Lookup(d, k).value, empty).value) else Lookup(d, j)
  {
    LookupKeys(d, k);
    match Lookup(d, k)
    case Some(JStr(s)) =>
      var v := Decoded(c, JStr(s), empty).value;
      LookupSet(d, k, v, j);
      KeysSet(d, k, v);
    case _ =>
  }

  function IsEncoded(k: string): bool {
    k == "comments_data" || k == "author_data" || k == "author_recent_content"
  }

  function EmptyFor(k: string): Json {
    if k == "author_data" then JObj([]) else JArr([])
  }

  /**
   * A normalised record has the keys of the table and of the record; the
   * record's values override the defaults, and the three encoded fields
   * hold their decoded values.
   */
  lemma {:induction false} NormalizeLookup(c: Codec, item: Dict, fields: Dict, k: string)
    requires Normalize(c, item, fields).Ok?
    ensures var out := Normalize(c, item, fields).value;
      var given := if k in Keys(item) then Lookup(item, k) else Lookup(fields, k);
      Keys(out) == Keys(fields) + Keys(item)
      && "comments_data" in Keys(out)
      && (!IsEncoded(k) ==> Lookup(out, k) == given)
      && (IsEncoded(k) && given.Some? ==>
            Lookup(out, k).Some? && Decoded(c, given.value, EmptyFor(k)) == Ok(Lookup(out, k).value))
      && (given.None? ==> Lookup(out, k).None?)
  {
    var merged := Update(fields, item);
    MergeLookup(fields, item, k);
    MergeLookup(fields, item, "comments_data");
    var m1 := DecodeField(c, merged, "comments_data", JArr([])).value;
    DecodeFieldLookup(c, merged, "comments_data", JArr([]), k);
    DecodeFieldLookup(c, merged, "comments_data", JArr([]), "author_data");
    DecodeFieldLookup(c, merged, "comments_data", JArr([]), "author_recent_content");
    DecodeFieldLookup(c, merged, "comments_data", JArr([]), "comments_data");
    var m2 := DecodeField(c, m1, "author_data", JObj([])).value;
    DecodeFieldLookup(c, m1, "author_data", JObj([]), k);
    DecodeFieldLookup(c, m1, "author_data", JObj([]), "author_recent_content");
    DecodeFieldLookup(c, m1, "author_data", JObj([]), "comments_data");
    DecodeFieldLookup(c, m2, "author_recent_content", JArr([]), k);
    DecodeFieldLookup(c, m2, "author_recent_content", JArr([]), "comments_data");
    LookupKeys(Normalize(c, item, fields).value, "comments_data");
  }

  lemma {:induction false} KeysInAll(records: seq<Dict>, i: nat)
    requires i < |records|
    ensures Keys(records[i]) <= AllKeys(records)
    decreases |records|
  {
    if i < |records| - 1 {
      KeysInAll(records[..|records| - 1], i);
    }
  }

  /**
   * `comments_data` is read without a default: in a batch where no record
   * has it, normalising any record raises `KeyError`.
   */
  lemma {:induction false} NoCommentsFieldRaises(c: Codec, records: seq<Dict>, i: nat)
    requires i < |records| && "comments_data" !in AllKeys(records)
    ensures Normalize(c, records[i], Fields(records)).Raise?
    ensures Normalize(c, records[i], Fields(records)).exc.kind == KeyError
  {
    FieldsTable(records, "comments_data");
    KeysInAll(records, i);
    MergeLookup(Fields(records), records[i], "comments_data");
    LookupKeys(Fields(records), "comments_data");
  }

  /** `{**d, **e}` looked up: the keys of `e` win. */
  lemma {:induction false} MergeLookup(d: Dict, e: Dict, k: string)
    ensures Keys(Update(d, e)) == Keys(d) + Keys(e)
    ensures Lookup(Update(d, e), k) == if k in Keys(e) then Lookup(e, k) else Lookup(d, k)
  {
    KeysUpdate(d, e);
    LookupUpdate(d, e, k);
    LookupKeys(e, k);
  }

  /**
   * Normalising twice against the same table changes nothing (as Python's
   * dict equality sees it), once the decoded fields are no longer strings.
   */
  lemma {:induction false} NormalizeIdempotent(c: Codec, item: Dict, fields: Dict)
    requires Normalize(c, item, fields).Ok?
    requires var out := Normalize(c, item, fields).value;
      forall k | IsEncoded(k) :: Lookup(out, k).None? || !Lookup(out, k).value.JStr?
    ensures var out := Normalize(c, item, fields).value;
      Normalize(c, out, fields).Ok? && SameDict(Normalize(c, out, fields).value, out)
  {
    var out := Normalize(c, item, fields).value;
    NormalizeLookup(c, item, fields, "comments_data");
    MergeLookup(fields, out, "comments_data");
    var merged := Update(fields, out);
    assert Lookup(merged, "comments_data") == Lookup(out, "comments_data") by {
      assert "comments_data" in Keys(out);
    }
    LookupKeys(out, "comments_data");
    assert IsEncoded("author_data") && IsEncoded("author_recent_content") && IsEncoded("comments_data");
    MergeLookup(fields, out, "author_data");
    MergeLookup(fields, out, "author_recent_content");
    NormalizeLookup(c, item, fields, "author_data");
    NormalizeLookup(c, item, fields, "author_recent_content");
    LookupKeys(out, "author_data");
    LookupKeys(out, "author_recent_content");
    LookupKeys(fields, "author_data");
    LookupKeys(fields, "author_recent_content");
    assert Normalize(c, out, fields) == Ok(merged);
    forall k | k in Keys(merged) ensures Lookup(merged, k) == Lookup(out, k) {
      MergeLookup(fields, out, k);
    }
  }

  /** `normalize_data_fields`: the override loop, then the three decodings in place. */
  method NormalizeDataFields(c: Codec, item: Dict, fields: Dict) returns (r: Result<Dict>)
    ensures r == Normalize(c, item, fields)
  {
    var normalized := fields;
    for j := 0 to |item|
      invariant normalized == Update(fields, item[..j])
    {
      assert item[..j + 1][..j] == item[..j];
      normalized := Set(normalized, item[j].0, item[j].1);
    }
    assert item[..|item|] == item;
    if Lookup(normalized, "comments_data").None? {
      return Raise(Exc(KeyError, "'comments_data'"));
    }
    for k := 0 to |EncodedFields|
      invariant k == 0 ==> normalized == Update(fields, item)
      invariant k == 1 ==> Ok(normalized) == DecodeField(c, Update(fields, item), "comments_data", JArr([]))
      invariant k == 2 ==> (DecodeField(c, Update(fields, item), "comments_data", JArr([])).Ok?
        && Ok(normalized) == DecodeField(c, DecodeField(c, Update(fields, item), "comments_data", JArr([])).value,
                                         "author_data", JObj([])))
      invariant k == 3 ==> Ok(normalized) == Normalize(c, item, fields)
    {
      var (key, empty) := EncodedFields[k];
      var step := DecodeField(c, normalized, key, empty);
      if step.Raise? {
        return Raise(step.exc);
      }
      normalized := step.value;
    }
    r := Ok(normalized);
  }

  // --------------------------------------------------------------- flattening

  /** `f"{v}"` */
  function Text(c: Codec, v: Json): string {
    Str(c, v)
  }

  /** `f"{user}{location_info}{date_info}：{content}\n"` for one comment dict. */
  function CommentLine(c: Codec, comment: Dict): string {
    var location := Get(comment, "comment_location", JStr(""));
    var date := Get(comment, "comment_date", JStr(""));
    Text(c, Get(comment, "comment_user_nick", JStr("")))
    + (if Truthy(location) then "[" + Text(c, location) + "]" else "")
    + (if Truthy(date) then "(" + Text(c, date) + ")" else "")
    + "：" + Text(c, Get(comment, "comment_content", JStr(""))) + "\n"
  }

  /** The comment lines, in order; anything but a dict is skipped. */
  function CommentsText(c: Codec, comments: seq<Json>): string
    decreases |comments|
  {
    if comments == [] then ""
    else
      var last := comments[|comments| - 1];
      CommentsText(c, comments[..|comments| - 1]) + (if last.JObj? then CommentLine(c, last.members) else "")
  }

  /** The text of a list of comments is the texts of its parts, one after the other. */
  lemma {:induction false} CommentsTextAppend(c: Codec, a: seq<Json>, b: seq<Json>)
    ensures CommentsText(c, a + b) == CommentsText(c, a) + CommentsText(c, b)
    decreases |b|
  {
    if b == [] {
      assert a + b == a;
    } else {
      var p := b[..|b| - 1];
      assert (a + b)[..|a + b| - 1] == a + p;
      CommentsTextAppend(c, a, p);
    }
  }

  /** One comment dict contributes exactly its own line; anything else nothing. */
  lemma {:induction false} CommentsTextOne(c: Codec, x: Json)
    ensures CommentsText(c, [x]) == if x.JObj? then CommentLine(c, x.members) else ""
  {
    assert [x][..0] == [];
  }

  /** The `for comment in comments_data` loop, accumulating `comments_text`. */
  method FlattenComments(c: Codec, comments: seq<Json>) returns (text: string)
    ensures text == CommentsText(c, comments)
  {
    text := "";
    for i := 0 to |comments|
      invariant text == CommentsText(c, comments[..i])
    {
      assert comments[..i + 1][..i] == comments[..i];
      var comment := comments[i];
      if !comment.JObj? {
        continue;
      }
      var ms := comment.members;
      var user := Get(ms, "comment_user_nick", JStr(""));
      var content := Get(ms, "comment_content", JStr(""));
      var location := Get(ms, "comment_location", JStr(""));
      var date := Get(ms, "comment_date", JStr(""));
      var locationInfo := if Truthy(location) then "[" + Text(c, location) + "]" else "";
      var dateInfo := if Truthy(date) then "(" + Text(c, date) + ")" else "";
      assert CommentLine(c, ms) == Text(c, user) + locationInfo + dateInfo + "：" + Text(c, content) + "\n";
      text := text + (Text(c, user) + locationInfo + dateInfo + "：" + Text(c, content) + "\n");
    }
    assert comments[..|comments|] == comments;
  }

  function Field(d: Dict, k: string): Result<Json> {
    match Lookup(d, k)
    case Some(v) => Ok(v)
    case None => Raise(Exc(KeyError, "'" + k + "'"))
  }

  /** The comments to walk: none when `comments_data` is falsy. */
  function CommentsOf(v: Json): Result<seq<Json>> {
    if !Truthy(v) then Ok([]) else Iterate(v)
  }

  /**
   * The full content of one normalised record: the author, title and
   * detail line, then one line per comment dict.  `source` is read and
   * lower-cased although the text does not use it.
   */
  function FullContent(c: Codec, item: Dict): (r: Result<string>)
    ensures r.Ok? ==>
      Lookup(item, "author_name").Some? && Lookup(item, "title").Some? && Lookup(item, "detail_desc").Some?
      && Lookup(item, "comments_data").Some?
      && exists comments: seq<Json> :: (CommentsOf(Lookup(item, "comments_data").value) == Ok(comments)
           && r.value == Text(c, Lookup(item, "author_name").value) + "：" + Text(c, Lookup(item, "title").value)
                         + " " + Text(c, Lookup(item, "detail_desc").value) + "\n" + CommentsText(c, comments))
    ensures Lookup(item, "author_name").None? || Lookup(item, "title").None? || Lookup(item, "source").None? ==>
      r.Raise? && r.exc.kind == KeyError
    ensures Lookup(item, "source").Some? && !Lookup(item, "source").value.JStr? ==> r.Raise?
  {
    match Field(item, "author_name")
    case Raise(e) => Raise(e)
    case Ok(author) =>
      match Field(item, "title")
      case Raise(e) => Raise(e)
      case Ok(title) =>
        match Field(item, "source")
        case Raise(e) => Raise(e)
        case Ok(source) =>
          if !source.JStr? then Raise(Exc(AttributeError, "object has no attribute 'lower'"))
          else
            match Field(item, "detail_desc")
            case Raise(e) => Raise(e)
            case Ok(detail) =>
              var main := Text(c, author) + "：" + Text(c, title) + " " + Text(c, detail) + "\n";
              match Field(item, "comments_data")
              case Raise(e) => Raise(e)
              case Ok(data) =>
                match CommentsOf(data)
                case Raise(e) => Raise(e)
                case Ok(comments) => Ok(main + CommentsText(c, comments))
  }

  /** The body of the content-building loop, for one record. */
  method FlattenRecord(c: Codec, item: Dict) returns (r: Result<string>)
    ensures r == FullContent(c, item)
  {
    var author := Field(item, "author_name");
    if author.Raise? { return Raise(author.exc); }
    var title := Field(item, "title");
    if title.Raise? { return Raise(title.exc); }
    var source := Field(item, "source");
    if source.Raise? { return Raise(source.exc); }
    if !source.value.JStr? {
      return Raise(Exc(AttributeError, "object has no attribute 'lower'"));
    }
    var detail := Field(item, "detail_desc");
    if detail.Raise? { return Raise(detail.exc); }
    var main := Text(c, author.value) + "：" + Text(c, title.value) + " " + Text(c, detail.value) + "\n";
    var data := Field(item, "comments_data");
    if data.Raise? { return Raise(data.exc); }
    var comments := CommentsOf(data.value);
    if comments.Raise? { return Raise(comments.exc); }
    var text := FlattenComments(c, comments.value);
    r := Ok(main + text);
  }
}
