/** `QueryJob`: what the scheduler fires for one query name. It looks the
    query up in the current settings, tags the run with a short correlation
    id, runs the executor, and contains whatever the executor raises.

    The GUID behind the correlation id is an input (its 16 bytes as
    `Guid.ToByteArray` lays them out); the id is the first 8 characters of
    its Base64 text made URL-safe. */
module QueryJob {
  import opened Base
  import opened Config
  import opened QueryExecutor

  // ----------------------------------------------------------- Base64

  type Byte = x: int | 0 <= x < 256

  /** The Base64 alphabet of `Convert.ToBase64String` (section 4 of RFC
      4648): A-Z, a-z, 0-9, then `+` and `/`. */
  function Sextet(n: nat): char
    requires n < 64
  {
    if n < 26 then ('A' as int + n) as char
    else if n < 52 then ('a' as int + (n - 26)) as char
    else if n < 62 then ('0' as int + (n - 52)) as char
    else if n == 62 then '+'
    else '/'
  }

  /** The characters that can appear once `/` and `+` are replaced. */
  predicate IsUrlSafe(c: char) {
    'A' <= c <= 'Z' || 'a' <= c <= 'z' || '0' <= c <= '9' || c == '-' || c == '_'
  }

  /** Three bytes as four characters, six bits each, most significant first. */
  function EncodeGroup(b0: Byte, b1: Byte, b2: Byte): (r: string)
    ensures |r| == 4
  {
    [Sextet(b0 / 4), Sextet((b0 % 4) * 16 + b1 / 16), Sextet((b1 % 16) * 4 + b2 / 64), Sextet(b2 % 64)]
  }

  /** `Convert.ToBase64String`: whole groups, then a final one or two bytes
      padded with `=`. */
  function Encode(bs: seq<Byte>): (r: string)
    ensures |r| == 4 * ((|bs| + 2) / 3)
    decreases |bs|
  {
    if |bs| >= 3 then EncodeGroup(bs[0], bs[1], bs[2]) + Encode(bs[3..])
    else if |bs| == 2 then EncodeGroup(bs[0], bs[1], 0)[..3] + "="
    else if |bs| == 1 then EncodeGroup(bs[0], 0, 0)[..2] + "=="
    else ""
  }

  /** `.Replace("/", "_").Replace("+", "-")` on one character. */
  function UrlSafeChar(c: char): char {
    if c == '/' then '_' else if c == '+' then '-' else c
  }

  function UrlSafe(s: string): (r: string)
    ensures |r| == |s|
    ensures forall i :: 0 <= i < |s| ==> r[i] == UrlSafeChar(s[i])
  {
    if |s| == 0 then "" else [UrlSafeChar(s[0])] + UrlSafe(s[1..])
  }

  /** `GenerateShortId`. */
  function ShortId(guid: seq<Byte>): (r: string)
    requires |guid| == 16
  {
    UrlSafe(Encode(guid))[..8]
  }

  // ------------------------------------------------- decoding, as a check

  /** The six-bit value of a URL-safe character. */
  function UrlSafeValue(c: char): (r: Option<nat>)
    ensures r.Some? <==> IsUrlSafe(c)
    ensures r.Some? ==> r.value < 64
  {
    if 'A' <= c <= 'Z' then Some(c as int - 'A' as int)
    else if 'a' <= c <= 'z' then Some(c as int - 'a' as int + 26)
    else if '0' <= c <= '9' then Some(c as int - '0' as int + 52)
    else if c == '-' then Some(62)
    else if c == '_' then Some(63)
    else None
  }

  /** Four URL-safe characters back to the three bytes they encode. */
  function DecodeGroup(s: string): (r: Option<seq<Byte>>)
    requires |s| == 4
  {
    match (UrlSafeValue(s[0]), UrlSafeValue(s[1]), UrlSafeValue(s[2]), UrlSafeValue(s[3]))
    case (Some(a), Some(b), Some(c), Some(d)) =>
      Some([a * 4 + b / 16, (b % 16) * 16 + c / 4, (c % 4) * 64 + d])
    case _ => None
  }

  /** An id of whole groups back to the bytes it encodes. */
  function DecodeUrlSafe(s: string): Option<seq<Byte>>
    decreases |s|
  {
    if |s| == 0 then Some([])
    else if |s| < 4 then None
    else
      match (DecodeGroup(s[..4]), DecodeUrlSafe(s[4..]))
      case (Some(g), Some(rest)) => Some(g + rest)
      case _ => None
  }

  lemma SextetIsUrlSafeAfterMapping(n: nat)
    requires n < 64
    ensures UrlSafeValue(UrlSafeChar(Sextet(n))) == Some(n)
  {
  }

  /** Each byte is recovered from the two six-bit values it was split over. */
  lemma FirstByteBack(b0: Byte, b1: Byte)
    ensures (b0 / 4) * 4 + ((b0 % 4) * 16 + b1 / 16) / 16 == b0
  {
    var q := b1 / 16;
    assert 0 <= q < 16;
    assert ((b0 % 4) * 16 + q) / 16 == b0 % 4;
  }

  lemma SecondByteBack(b1: Byte, b2: Byte)
    ensures (((b1 / 16) % 16) * 16 + ((b1 % 16) * 4 + b2 / 64) / 4) == b1
  {
    var q := b2 / 64;
    assert 0 <= q < 4;
    assert ((b1 % 16) * 4 + q) / 4 == b1 % 16;
  }

  lemma MiddleSextet(b0: Byte, b1: Byte)
    ensures ((b0 % 4) * 16 + b1 / 16) % 16 == b1 / 16
  {
    var q := b1 / 16;
    assert 0 <= q < 16;
  }

  lemma ThirdByteBack(b1: Byte, b2: Byte)
    ensures (((b1 % 16) * 4 + b2 / 64) % 4) * 64 + b2 % 64 == b2
  {
    var q := b2 / 64;
    assert 0 <= q < 4;
    assert ((b1 % 16) * 4 + q) % 4 == q;
  }

  lemma GroupRoundTrip(b0: Byte, b1: Byte, b2: Byte)
    ensures DecodeGroup(UrlSafe(EncodeGroup(b0, b1, b2))) == Some([b0, b1, b2])
  {
    var s0, s1, s2, s3 := b0 / 4, (b0 % 4) * 16 + b1 / 16, (b1 % 16) * 4 + b2 / 64, b2 % 64;
    var g := EncodeGroup(b0, b1, b2);
    assert g == [Sextet(s0), Sextet(s1), Sextet(s2), Sextet(s3)];
    SextetIsUrlSafeAfterMapping(s0);
    SextetIsUrlSafeAfterMapping(s1);
    SextetIsUrlSafeAfterMapping(s2);
    SextetIsUrlSafeAfterMapping(s3);
    var u := UrlSafe(g);
    assert UrlSafeValue(u[0]) == Some(s0);
    assert UrlSafeValue(u[1]) == Some(s1);
    assert UrlSafeValue(u[2]) == Some(s2);
    assert UrlSafeValue(u[3]) == Some(s3);
    FirstByteBack(b0, b1);
    MiddleSextet(b0, b1);
    SecondByteBack(b1, b2);
    ThirdByteBack(b1, b2);
    assert DecodeGroup(u) == Some([s0 * 4 + s1 / 16, (s1 % 16) * 16 + s2 / 4, (s2 % 4) * 64 + s3]);
  }

  // ---------------------------------------------------------- properties

  /** The id is the first six bytes' two Base64 groups. */
  lemma ShortIdIsTwoGroups(guid: seq<Byte>)
    requires |guid| == 16
    ensures ShortId(guid) == UrlSafe(EncodeGroup(guid[0], guid[1], guid[2])) + UrlSafe(EncodeGroup(guid[3], guid[4], guid[5]))
  {
    var e := Encode(guid);
    var g1 := EncodeGroup(guid[0], guid[1], guid[2]);
    var g2 := EncodeGroup(guid[3], guid[4], guid[5]);
    assert guid[3..][3..] == guid[6..];
    assert e == g1 + Encode(guid[3..]);
    assert Encode(guid[3..]) == g2 + Encode(guid[6..]);
    var u := UrlSafe(e);
    var r := ShortId(guid);
    var v := UrlSafe(g1) + UrlSafe(g2);
    forall i | 0 <= i < 8 ensures r[i] == v[i] {
      assert r[i] == u[i] == UrlSafeChar(e[i]);
      if i < 4 { assert e[i] == g1[i]; } else { assert e[i] == g2[i - 4]; }
    }
  }

  /** A group made URL-safe holds only URL-safe characters. */
  lemma UrlSafeGroup(b0: Byte, b1: Byte, b2: Byte)
    ensures forall j :: 0 <= j < 4 ==> IsUrlSafe(UrlSafe(EncodeGroup(b0, b1, b2))[j])
  {
    var s0, s1, s2, s3 := b0 / 4, (b0 % 4) * 16 + b1 / 16, (b1 % 16) * 4 + b2 / 64, b2 % 64;
    SextetIsUrlSafeAfterMapping(s0);
    SextetIsUrlSafeAfterMapping(s1);
    SextetIsUrlSafeAfterMapping(s2);
    SextetIsUrlSafeAfterMapping(s3);
  }

  /** The id is always eight characters of the URL-safe alphabet: no `/`,
      `+` or `=` padding. */
  lemma ShortIdShape(guid: seq<Byte>)
    requires |guid| == 16
    ensures |ShortId(guid)| == 8
    ensures forall i :: 0 <= i < 8 ==> IsUrlSafe(ShortId(guid)[i])
    ensures forall i :: 0 <= i < 8 ==> ShortId(guid)[i] != '/' && ShortId(guid)[i] != '+' && ShortId(guid)[i] != '='
  {
    ShortIdIsTwoGroups(guid);
    var u1 := UrlSafe(EncodeGroup(guid[0], guid[1], guid[2]));
    var u2 := UrlSafe(EncodeGroup(guid[3], guid[4], guid[5]));
    UrlSafeGroup(guid[0], guid[1], guid[2]);
    UrlSafeGroup(guid[3], guid[4], guid[5]);
    var r := ShortId(guid);
    forall i | 0 <= i < 8 ensures IsUrlSafe(r[i]) {
      if i < 4 { assert r[i] == u1[i]; } else { assert r[i] == u2[i - 4]; }
    }
  }

  /** The id decodes back to the GUID's first six bytes: it carries 48 bits
      of the GUID and nothing else. */
  lemma ShortIdDecodes(guid: seq<Byte>)
    requires |guid| == 16
    ensures DecodeUrlSafe(ShortId(guid)) == Some(guid[..6])
  {
    ShortIdIsTwoGroups(guid);
    var u1 := UrlSafe(EncodeGroup(guid[0], guid[1], guid[2]));
    var u2 := UrlSafe(EncodeGroup(guid[3], guid[4], guid[5]));
    GroupRoundTrip(guid[0], guid[1], guid[2]);
    GroupRoundTrip(guid[3], guid[4], guid[5]);
    var id := u1 + u2;
    assert id[..4] == u1 && id[4..] == u2;
    assert u2[..4] == u2 && u2[4..] == "";
    assert DecodeUrlSafe(u2[4..]) == Some([]);
    assert DecodeUrlSafe(u2) == Some([guid[3], guid[4], guid[5]] + []);
    assert DecodeUrlSafe(id) == Some([guid[0], guid[1], guid[2]] + ([guid[3], guid[4], guid[5]] + []));
    assert guid[..6] == [guid[0], guid[1], guid[2]] + ([guid[3], guid[4], guid[5]] + []);
  }

  // ------------------------------------------------------------- the job

  /** What one firing did: the query found (if any), its correlation id,
      and the executor's run. The job itself never raises. */
  datatype JobRun<V> = JobRun(query: Option<QueryConfig>, correlationId: Option<string>, run: Option<ExecutionRun<V>>, store: Store)

  /** `Execute`: an unknown name is logged and nothing runs; otherwise the
      executor runs under a fresh correlation id, and its failure, even the
      rethrow of a `Halt` policy, is logged and not propagated. */
  function Execute<V>(queryName: string, ctx: Context, store: Store, world: World<V>, guid: seq<Byte>): (r: JobRun<V>)
    requires ValidContext(ctx) && ValidWorld(world) && |guid| == 16
    ensures FindQuery(ctx.settings.queries, queryName).None? ==> r == JobRun(None, None, None, store)
    ensures FindQuery(ctx.settings.queries, queryName).Some? ==>
      var q := FindQuery(ctx.settings.queries, queryName).value;
      && r.query == Some(q) && q.name == queryName
      && r.correlationId == Some(ShortId(guid))
      && r.run == Some(ExecuteQuery(q, ctx, store, world))
      && r.store == r.run.value.store
  {
    match FindQuery(ctx.settings.queries, queryName)
    case None => JobRun(None, None, None, store)
    case Some(q) =>
      var run := ExecuteQuery(q, ctx, store, world);
      JobRun(Some(q), Some(ShortId(guid)), Some(run), run.store)
  }

  /** A query whose failure policy rethrows still ends its job normally:
      the exception stays in the executor's run. */
  lemma HaltIsContained<V>(queryName: string, ctx: Context, store: Store, world: World<V>, guid: seq<Byte>)
    requires ValidContext(ctx) && ValidWorld(world) && |guid| == 16
    requires FindQuery(ctx.settings.queries, queryName).Some?
    requires ExecuteQuery(FindQuery(ctx.settings.queries, queryName).value, ctx, store, world).result.Err?
    ensures Execute(queryName, ctx, store, world, guid).run.Some?
    ensures Execute(queryName, ctx, store, world, guid).run.value.result.Err?
    ensures Execute(queryName, ctx, store, world, guid).store == ExecuteQuery(FindQuery(ctx.settings.queries, queryName).value, ctx, store, world).store
  {
  }
}
