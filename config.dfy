/** The database configuration record and its two renderings: the display
    form (`Config.String`) and the keyword/value connection string
    (`Config.DSN`), both plain `fmt.Sprintf` layouts with no quoting. */
module Configuration {
  import opened Wrappers
  import opened Decimal

  /** The fields of the Go `Config` struct. */
  datatype Config = Config(
    host: string,
    port: int,
    user: string,
    pass: string,
    name: string,
    maxConnectionPool: int,
    minConnectionPool: int,
    timezone: string)

  /** `cfg.String()`: connection details and pool sizes, minimum first. */
  function String(cfg: Config): string {
    "user=" + cfg.user + " password=" + cfg.pass + " dbname=" + cfg.name
    + " port=" + IntToDecimal(cfg.port) + " host=" + cfg.host
    + " min-pool=" + IntToDecimal(cfg.minConnectionPool)
    + " max-pool=" + IntToDecimal(cfg.maxConnectionPool)
  }

  /** `cfg.DSN()`: the connection string handed to the driver. */
  function DSN(cfg: Config): string {
    "user=" + cfg.user + " password=" + cfg.pass + " dbname=" + cfg.name
    + " port=" + IntToDecimal(cfg.port) + " host=" + cfg.host
    + " sslmode=disable TimeZone=" + cfg.timezone
  }

  // ---------------------------------------------------------------------
  // Keyword/value strings: an independent description of both layouts.
  // ---------------------------------------------------------------------

  type Pair = (string, string)

  function PairText(p: Pair): string {
    p.0 + "=" + p.1
  }

  /** `k1=v1 k2=v2 ...`: pairs joined by single spaces, with no quoting. */
  function Render(ps: seq<Pair>): string {
    if |ps| == 0 then ""
    else if |ps| == 1 then PairText(ps[0])
    else Render(ps[..|ps| - 1]) + " " + PairText(ps[|ps| - 1])
  }

  /** The words of `s` between single spaces (an empty word where two spaces meet). */
  function Words(s: string): (ws: seq<string>)
    ensures |ws| >= 1
  {
    if |s| == 0 then [""]
    else if s[0] == ' ' then [""] + Words(s[1..])
    else var rest := Words(s[1..]); [[s[0]] + rest[0]] + rest[1..]
  }

  /** A word `k=v` split at its first '='; `None` when it has none. */
  function SplitPair(w: string): (r: Option<Pair>)
    ensures r.Some? ==> w == r.value.0 + "=" + r.value.1 && '=' !in r.value.0
  {
    if |w| == 0 then None
    else if w[0] == '=' then Some(("", w[1..]))
    else match SplitPair(w[1..])
      case None => None
      case Some(p) => Some(([w[0]] + p.0, p.1))
  }

  function SplitPairs(ws: seq<string>): Option<seq<Pair>> {
    if |ws| == 0 then Some([])
    else
      var head, tail := SplitPair(ws[0]), SplitPairs(ws[1..]);
      if head.Some? && tail.Some? then Some([head.value] + tail.value) else None
  }

  /** Reads a keyword/value string back into its pairs. */
  function ParsePairs(s: string): Option<seq<Pair>> {
    SplitPairs(Words(s))
  }

  /** The keywords of a pair list, in order. */
  function Keys(ps: seq<Pair>): (ks: seq<string>) {
    seq(|ps|, i requires 0 <= i < |ps| => ps[i].0)
  }

  /** Keywords that cannot be confused with separators: free of ' ' and '='. */
  predicate KeysReadable(ps: seq<Pair>) {
    forall i :: 0 <= i < |ps| ==> ' ' !in ps[i].0 && '=' !in ps[i].0
  }

  /** A pair list that reads back unchanged: readable keywords, values free of ' '. */
  predicate Readable(ps: seq<Pair>) {
    KeysReadable(ps) && forall i :: 0 <= i < |ps| ==> ' ' !in ps[i].1
  }

  predicate OccursAt(sub: string, s: string, i: int) {
    0 <= i <= |s| - |sub| && s[i..i + |sub|] == sub
  }

  /** `sub` occurs in `s` as a contiguous piece. */
  ghost predicate Occurs(sub: string, s: string) {
    exists i :: OccursAt(sub, s, i)
  }

  function SpaceCount(s: string): nat {
    if |s| == 0 then 0 else (if s[0] == ' ' then 1 else 0) + SpaceCount(s[1..])
  }

  /** The spaces inside the values of a pair list. */
  function ValueSpaces(ps: seq<Pair>): nat {
    if |ps| == 0 then 0 else ValueSpaces(ps[..|ps| - 1]) + SpaceCount(ps[|ps| - 1].1)
  }

  /** The string fields carry no space, so that no value runs into the next pair. */
  predicate Plain(cfg: Config) {
    ' ' !in cfg.user && ' ' !in cfg.pass && ' ' !in cfg.name && ' ' !in cfg.host && ' ' !in cfg.timezone
  }

  function DSNPairs(cfg: Config): seq<Pair> {
    [("user", cfg.user), ("password", cfg.pass), ("dbname", cfg.name),
     ("port", IntToDecimal(cfg.port)), ("host", cfg.host),
     ("sslmode", "disable"), ("TimeZone", cfg.timezone)]
  }

  function StringPairs(cfg: Config): seq<Pair> {
    [("user", cfg.user), ("password", cfg.pass), ("dbname", cfg.name),
     ("port", IntToDecimal(cfg.port)), ("host", cfg.host),
     ("min-pool", IntToDecimal(cfg.minConnectionPool)),
     ("max-pool", IntToDecimal(cfg.maxConnectionPool))]
  }

  // ---------------------------------------------------------------------
  // Lemmas
  // ---------------------------------------------------------------------

  lemma {:induction false} WordsNoSpace(a: string)
    requires ' ' !in a
    ensures Words(a) == [a]
  {
    if |a| > 0 {
      WordsNoSpace(a[1..]);
      assert [a[0]] + a[1..] == a;
    }
  }

  lemma {:induction false} WordsSplit(a: string, b: string)
    ensures Words(a + " " + b) == Words(a) + Words(b)
  {
    var x := a + " " + b;
    if |a| == 0 {
      assert x[1..] == b;
    } else {
      assert x[0] == a[0] && x[1..] == a[1..] + " " + b;
      WordsSplit(a[1..], b);
    }
  }

  lemma {:induction false} SplitPairAtFirst(k: string, v: string)
    requires '=' !in k
    ensures SplitPair(k + "=" + v) == Some((k, v))
  {
    var w := k + "=" + v;
    if |k| == 0 {
      assert w[1..] == v;
    } else {
      assert w[0] == k[0] && w[1..] == k[1..] + "=" + v;
      SplitPairAtFirst(k[1..], v);
      assert [k[0]] + k[1..] == k;
    }
  }

  lemma SplitPairsSingle(w: string, p: Pair)
    requires SplitPair(w) == Some(p)
    ensures SplitPairs([w]) == Some([p])
  {
    assert [w][0] == w && [w][1..] == [];
    assert SplitPairs([w][1..]) == Some([]);
    assert [p] + [] == [p];
  }

  lemma {:induction false} SplitPairsSnoc(ws: seq<string>, w: string, ps: seq<Pair>, p: Pair)
    requires SplitPairs(ws) == Some(ps) && SplitPair(w) == Some(p)
    ensures SplitPairs(ws + [w]) == Some(ps + [p])
  {
    if |ws| == 0 {
      assert ws + [w] == [w] && ps + [p] == [p];
      SplitPairsSingle(w, p);
    } else {
      var q :| SplitPair(ws[0]) == Some(q) && SplitPairs(ws[1..]) == Some(ps[1..]) && ps == [q] + ps[1..];
      assert (ws + [w])[0] == ws[0] && (ws + [w])[1..] == ws[1..] + [w];
      SplitPairsSnoc(ws[1..], w, ps[1..], p);
      assert ps + [p] == [q] + (ps[1..] + [p]);
    }
  }

  /** Rendering and then reading a readable pair list gives the list back. */
  lemma {:induction false} ParseRender(ps: seq<Pair>)
    requires |ps| >= 1 && Readable(ps)
    ensures ParsePairs(Render(ps)) == Some(ps)
  {
    var last := ps[|ps| - 1];
    var w := PairText(last);
    assert ' ' !in w by {
      forall i | 0 <= i < |w| ensures w[i] != ' ' {
        if i < |last.0| { assert w[i] == last.0[i]; }
        else if i > |last.0| { assert w[i] == last.1[i - |last.0| - 1]; }
      }
    }
    SplitPairAtFirst(last.0, last.1);
    WordsNoSpace(w);
    if |ps| == 1 {
      assert ps == [last];
      SplitPairsSingle(w, last);
    } else {
      var init := ps[..|ps| - 1];
      assert Readable(init) by {
        forall i | 0 <= i < |init| ensures ' ' !in init[i].0 && '=' !in init[i].0 && ' ' !in init[i].1 {
          assert init[i] == ps[i];
        }
      }
      ParseRender(init);
      WordsSplit(Render(init), w);
      SplitPairsSnoc(Words(Render(init)), w, init, last);
      assert init + [last] == ps;
    }
  }

  /** Rendering one more pair appends a space and that pair. */
  lemma RenderSnoc(ps: seq<Pair>, p: Pair)
    requires |ps| >= 1
    ensures Render(ps + [p]) == Render(ps) + " " + PairText(p)
  {
    assert (ps + [p])[..|ps|] == ps;
  }

  lemma RenderSeven(p0: Pair, p1: Pair, p2: Pair, p3: Pair, p4: Pair, p5: Pair, p6: Pair)
    ensures Render([p0, p1, p2, p3, p4, p5, p6])
         == PairText(p0) + " " + PairText(p1) + " " + PairText(p2) + " " + PairText(p3)
          + " " + PairText(p4) + " " + PairText(p5) + " " + PairText(p6)
  {
    var q := [p0];
    RenderSnoc(q, p1);
    q := q + [p1];
    RenderSnoc(q, p2);
    q := q + [p2];
    RenderSnoc(q, p3);
    q := q + [p3];
    RenderSnoc(q, p4);
    q := q + [p4];
    RenderSnoc(q, p5);
    q := q + [p5];
    RenderSnoc(q, p6);
    q := q + [p6];
    assert q == [p0, p1, p2, p3, p4, p5, p6];
  }

  /** Appending the literal `" k="` and a value appends one separator and the pair `k=v`. */
  lemma Glue(x: string, sep: string, k: string, v: string)
    requires sep == " " + k + "="
    ensures x + sep + v == x + " " + PairText((k, v))
  {
  }

  lemma SslTail(x: string, tz: string)
    ensures x + " sslmode=disable TimeZone=" + tz
         == x + " " + PairText(("sslmode", "disable")) + " " + PairText(("TimeZone", tz))
  {
  }

  lemma PoolTail(x: string, lo: string, hi: string)
    ensures x + " min-pool=" + lo + " max-pool=" + hi
         == x + " " + PairText(("min-pool", lo)) + " " + PairText(("max-pool", hi))
  {
  }

  /** The first five pairs, common to both layouts. */
  lemma CommonHead(cfg: Config)
    ensures "user=" + cfg.user + " password=" + cfg.pass + " dbname=" + cfg.name
            + " port=" + IntToDecimal(cfg.port) + " host=" + cfg.host
         == PairText(("user", cfg.user)) + " " + PairText(("password", cfg.pass))
            + " " + PairText(("dbname", cfg.name)) + " " + PairText(("port", IntToDecimal(cfg.port)))
            + " " + PairText(("host", cfg.host))
  {
    var x0 := "user=" + cfg.user;
    var x1 := x0 + " password=" + cfg.pass;
    Glue(x0, " password=", "password", cfg.pass);
    var x2 := x1 + " dbname=" + cfg.name;
    Glue(x1, " dbname=", "dbname", cfg.name);
    var x3 := x2 + " port=" + IntToDecimal(cfg.port);
    Glue(x2, " port=", "port", IntToDecimal(cfg.port));
    Glue(x3, " host=", "host", cfg.host);
  }

  /** The connection string is exactly the seven keyword=value pairs user,
      password, dbname, port, host, sslmode=disable and TimeZone, in that order,
      joined by single spaces. */
  lemma DSNLayout(cfg: Config)
    ensures DSN(cfg) == Render(DSNPairs(cfg))
  {
    var ps := DSNPairs(cfg);
    RenderSeven(ps[0], ps[1], ps[2], ps[3], ps[4], ps[5], ps[6]);
    CommonHead(cfg);
    SslTail("user=" + cfg.user + " password=" + cfg.pass + " dbname=" + cfg.name
            + " port=" + IntToDecimal(cfg.port) + " host=" + cfg.host, cfg.timezone);
  }

  /** The display string is exactly the seven pairs user, password, dbname,
      port, host, min-pool and max-pool, in that order. */
  lemma StringLayout(cfg: Config)
    ensures String(cfg) == Render(StringPairs(cfg))
  {
    var ps := StringPairs(cfg);
    RenderSeven(ps[0], ps[1], ps[2], ps[3], ps[4], ps[5], ps[6]);
    CommonHead(cfg);
    PoolTail("user=" + cfg.user + " password=" + cfg.pass + " dbname=" + cfg.name
             + " port=" + IntToDecimal(cfg.port) + " host=" + cfg.host,
             IntToDecimal(cfg.minConnectionPool), IntToDecimal(cfg.maxConnectionPool));
  }

  lemma {:induction false} SpaceCountAppend(a: string, b: string)
    ensures SpaceCount(a + b) == SpaceCount(a) + SpaceCount(b)
  {
    if |a| > 0 {
      assert (a + b)[0] == a[0] && (a + b)[1..] == a[1..] + b;
      SpaceCountAppend(a[1..], b);
    } else {
      assert a + b == b;
    }
  }

  lemma {:induction false} SpaceCountZero(s: string)
    ensures SpaceCount(s) == 0 <==> ' ' !in s
  {
    if |s| > 0 {
      SpaceCountZero(s[1..]);
      assert s == [s[0]] + s[1..];
    }
  }

  /** There is one word more than there are spaces. */
  lemma {:induction false} WordsCount(s: string)
    ensures |Words(s)| == SpaceCount(s) + 1
  {
    if |s| > 0 {
      WordsCount(s[1..]);
    }
  }

  lemma {:induction false} SplitPairsLength(ws: seq<string>)
    ensures SplitPairs(ws).Some? ==> |SplitPairs(ws).value| == |ws|
  {
    if |ws| > 0 {
      SplitPairsLength(ws[1..]);
    }
  }

  lemma {:induction false} ValueSpacesZero(ps: seq<Pair>)
    ensures ValueSpaces(ps) == 0 <==> forall i :: 0 <= i < |ps| ==> ' ' !in ps[i].1
  {
    if |ps| > 0 {
      var init := ps[..|ps| - 1];
      ValueSpacesZero(init);
      SpaceCountZero(ps[|ps| - 1].1);
      assert forall i :: 0 <= i < |init| ==> init[i] == ps[i];
    }
  }

  /** A rendering has one separating space between neighbouring pairs, plus the
      spaces the values themselves carry. */
  lemma {:induction false} RenderSpaces(ps: seq<Pair>)
    requires |ps| >= 1 && KeysReadable(ps)
    ensures SpaceCount(Render(ps)) == |ps| - 1 + ValueSpaces(ps)
  {
    var last := ps[|ps| - 1];
    SpaceCountZero(last.0);
    SpaceCountAppend(last.0, "=");
    SpaceCountAppend(last.0 + "=", last.1);
    assert SpaceCount("=") == 0;
    if |ps| == 1 {
      assert ps[..0] == [];
    } else {
      var init := ps[..|ps| - 1];
      assert KeysReadable(init) by {
        forall i | 0 <= i < |init| ensures ' ' !in init[i].0 && '=' !in init[i].0 {
          assert init[i] == ps[i];
        }
      }
      RenderSpaces(init);
      SpaceCountAppend(Render(init), " ");
      SpaceCountAppend(Render(init) + " ", PairText(last));
    }
  }

  /** With readable keywords, a rendering reads back as the pairs it was made
      from exactly when no value contains a space: nothing is quoted or escaped. */
  lemma ParseRenderIff(ps: seq<Pair>)
    requires |ps| >= 1 && KeysReadable(ps)
    ensures ParsePairs(Render(ps)) == Some(ps) <==> Readable(ps)
  {
    if Readable(ps) {
      ParseRender(ps);
    } else if ParsePairs(Render(ps)) == Some(ps) {
      SplitPairsLength(Words(Render(ps)));
      WordsCount(Render(ps));
      RenderSpaces(ps);
      ValueSpacesZero(ps);
    }
  }

  lemma DSNKeysReadable(cfg: Config)
    ensures KeysReadable(DSNPairs(cfg))
    ensures Readable(DSNPairs(cfg)) <==> Plain(cfg)
  {
    var ps := DSNPairs(cfg);
    assert ' ' !in ps[3].1 && ' ' !in ps[5].1;
    assert ps[0].1 == cfg.user && ps[1].1 == cfg.pass && ps[2].1 == cfg.name;
    assert ps[4].1 == cfg.host && ps[6].1 == cfg.timezone;
    if Plain(cfg) {
      forall i | 0 <= i < |ps| ensures ' ' !in ps[i].1 {
        if i == 0 {} else if i == 1 {} else if i == 2 {} else if i == 3 {}
        else if i == 4 {} else if i == 5 {} else {}
      }
    }
  }

  lemma StringKeysReadable(cfg: Config)
    ensures KeysReadable(StringPairs(cfg))
    ensures Readable(StringPairs(cfg)) <==> Plain(cfg.(timezone := ""))
  {
    var ps := StringPairs(cfg);
    assert ' ' !in ps[3].1 && ' ' !in ps[5].1 && ' ' !in ps[6].1;
    assert ps[0].1 == cfg.user && ps[1].1 == cfg.pass && ps[2].1 == cfg.name;
    assert ps[4].1 == cfg.host;
    if Plain(cfg.(timezone := "")) {
      forall i | 0 <= i < |ps| ensures ' ' !in ps[i].1 {
        if i == 0 {} else if i == 1 {} else if i == 2 {} else if i == 3 {}
        else if i == 4 {} else if i == 5 {} else {}
      }
    }
  }

  /** The connection string reads back as the configured values exactly when
      no string field holds a space: values are inserted without quoting. */
  lemma DSNReadsBackIff(cfg: Config)
    ensures ParsePairs(DSN(cfg)) == Some(DSNPairs(cfg)) <==> Plain(cfg)
  {
    DSNLayout(cfg);
    DSNKeysReadable(cfg);
    ParseRenderIff(DSNPairs(cfg));
  }

  /** The display string reads back as the configured values exactly when
      no string field it shows holds a space. */
  lemma StringReadsBackIff(cfg: Config)
    ensures ParsePairs(String(cfg)) == Some(StringPairs(cfg)) <==> Plain(cfg.(timezone := ""))
  {
    StringLayout(cfg);
    StringKeysReadable(cfg);
    ParseRenderIff(StringPairs(cfg));
  }

  /** `sub` sits right after `h` in `h + sub`. */
  lemma OccursAfter(h: string, sub: string)
    ensures OccursAt(sub, h + sub, |h|)
  {
    assert (h + sub)[|h|..|h| + |sub|] == sub;
  }

  /** Appending keeps an occurrence where it was. */
  lemma OccursExtend(sub: string, s: string, i: int, t: string)
    requires OccursAt(sub, s, i)
    ensures OccursAt(sub, s + t, i)
  {
    assert (s + t)[i..i + |sub|] == s[i..i + |sub|];
  }

  /** The password fragment of the first five pairs, found at a fixed place. */
  lemma PasswordInHead(cfg: Config)
    ensures OccursAt(" password=" + cfg.pass + " dbname=",
                     "user=" + cfg.user + " password=" + cfg.pass + " dbname=" + cfg.name
                     + " port=" + IntToDecimal(cfg.port) + " host=" + cfg.host, |"user=" + cfg.user|)
  {
    var h := "user=" + cfg.user;
    var mid := " password=" + cfg.pass + " dbname=";
    OccursAfter(h, mid);
    assert h + mid == h + " password=" + cfg.pass + " dbname=";
    var s := h + " password=" + cfg.pass + " dbname=";
    OccursExtend(mid, s, |h|, cfg.name);
    s := s + cfg.name;
    OccursExtend(mid, s, |h|, " port=");
    s := s + " port=";
    OccursExtend(mid, s, |h|, IntToDecimal(cfg.port));
    s := s + IntToDecimal(cfg.port);
    OccursExtend(mid, s, |h|, " host=");
    s := s + " host=";
    OccursExtend(mid, s, |h|, cfg.host);
  }

  /** The password is copied verbatim into the connection string, whatever it
      holds: nothing is redacted. */
  lemma DSNShowsPassword(cfg: Config)
    ensures Occurs(" password=" + cfg.pass + " dbname=", DSN(cfg))
  {
    var head := "user=" + cfg.user + " password=" + cfg.pass + " dbname=" + cfg.name
                + " port=" + IntToDecimal(cfg.port) + " host=" + cfg.host;
    var mid := " password=" + cfg.pass + " dbname=";
    var i := |"user=" + cfg.user|;
    PasswordInHead(cfg);
    OccursExtend(mid, head, i, " sslmode=disable TimeZone=");
    OccursExtend(mid, head + " sslmode=disable TimeZone=", i, cfg.timezone);
    assert OccursAt(mid, DSN(cfg), i);
  }

  /** The password is copied verbatim into the display string as well. */
  lemma StringShowsPassword(cfg: Config)
    ensures Occurs(" password=" + cfg.pass + " dbname=", String(cfg))
  {
    var head := "user=" + cfg.user + " password=" + cfg.pass + " dbname=" + cfg.name
                + " port=" + IntToDecimal(cfg.port) + " host=" + cfg.host;
    var mid := " password=" + cfg.pass + " dbname=";
    var i := |"user=" + cfg.user|;
    PasswordInHead(cfg);
    var s := head;
    OccursExtend(mid, s, i, " min-pool=");
    s := s + " min-pool=";
    OccursExtend(mid, s, i, IntToDecimal(cfg.minConnectionPool));
    s := s + IntToDecimal(cfg.minConnectionPool);
    OccursExtend(mid, s, i, " max-pool=");
    s := s + " max-pool=";
    OccursExtend(mid, s, i, IntToDecimal(cfg.maxConnectionPool));
    assert OccursAt(mid, String(cfg), i);
  }

  /** Every connection string ends with `sslmode=disable` and the timezone. */
  lemma DSNDisablesSsl(cfg: Config)
    ensures Occurs(" sslmode=disable TimeZone=" + cfg.timezone, DSN(cfg))
  {
    var tail := " sslmode=disable TimeZone=" + cfg.timezone;
    var front := "user=" + cfg.user + " password=" + cfg.pass + " dbname=" + cfg.name
                 + " port=" + IntToDecimal(cfg.port) + " host=" + cfg.host;
    assert DSN(cfg) == front + tail;
    assert (front + tail)[|front|..|front| + |tail|] == tail;
    assert OccursAt(tail, DSN(cfg), |front|);
  }

  /** The keywords of the connection string, in order; none is a pool size. */
  lemma DSNKeys(cfg: Config)
    ensures Keys(DSNPairs(cfg)) == ["user", "password", "dbname", "port", "host", "sslmode", "TimeZone"]
    ensures "min-pool" !in Keys(DSNPairs(cfg)) && "max-pool" !in Keys(DSNPairs(cfg))
  {
    var ks := Keys(DSNPairs(cfg));
    assert ks == ["user", "password", "dbname", "port", "host", "sslmode", "TimeZone"];
    assert "min-pool"[0] == 'm' && "max-pool"[0] == 'm';
  }

  /** The keywords of the display string, in order; neither timezone nor sslmode. */
  lemma StringKeys(cfg: Config)
    ensures Keys(StringPairs(cfg)) == ["user", "password", "dbname", "port", "host", "min-pool", "max-pool"]
    ensures "TimeZone" !in Keys(StringPairs(cfg)) && "sslmode" !in Keys(StringPairs(cfg))
  {
    var ks := Keys(StringPairs(cfg));
    assert ks == ["user", "password", "dbname", "port", "host", "min-pool", "max-pool"];
    assert "TimeZone"[0] == 'T' && "sslmode"[0] == 's' && "sslmode"[1] == 's';
  }

  /** With space-free fields the connection string reads back as its pairs:
      the password verbatim, sslmode=disable, the timezone, and no pool size;
      the port reads back as the configured number. */
  lemma DSNReadsBack(cfg: Config)
    requires Plain(cfg)
    ensures ParsePairs(DSN(cfg)) == Some(DSNPairs(cfg))
    ensures Keys(DSNPairs(cfg)) == ["user", "password", "dbname", "port", "host", "sslmode", "TimeZone"]
    ensures "min-pool" !in Keys(DSNPairs(cfg)) && "max-pool" !in Keys(DSNPairs(cfg))
    ensures ParseDecimal(DSNPairs(cfg)[3].1) == Some(cfg.port)
  {
    DSNReadsBackIff(cfg);
    DSNKeys(cfg);
    DecimalRoundTrip(cfg.port);
  }

  /** When the fields it shows are space-free (the timezone is not one), the
      display string reads back as its pairs: the password verbatim, the
      minimum before the maximum pool size, both numbers recoverable, and no
      timezone. */
  lemma StringReadsBack(cfg: Config)
    requires Plain(cfg.(timezone := ""))
    ensures ParsePairs(String(cfg)) == Some(StringPairs(cfg))
    ensures Keys(StringPairs(cfg)) == ["user", "password", "dbname", "port", "host", "min-pool", "max-pool"]
    ensures "TimeZone" !in Keys(StringPairs(cfg)) && "sslmode" !in Keys(StringPairs(cfg))
    ensures ParseDecimal(StringPairs(cfg)[5].1) == Some(cfg.minConnectionPool)
    ensures ParseDecimal(StringPairs(cfg)[6].1) == Some(cfg.maxConnectionPool)
  {
    StringReadsBackIff(cfg);
    StringKeys(cfg);
    DecimalRoundTrip(cfg.minConnectionPool);
    DecimalRoundTrip(cfg.maxConnectionPool);
  }

  /** The configuration used as the example in the package documentation. */
  const ExampleConfig := Config("localhost", 5432, "user", "password", "mydatabase", 10, 2, "Asia/Jakarta")

  /** The connection string of any configuration, given its first five pairs. */
  lemma DSNFromHead(cfg: Config, head: string)
    requires "user=" + cfg.user + " password=" + cfg.pass + " dbname=" + cfg.name
             + " port=" + IntToDecimal(cfg.port) + " host=" + cfg.host == head
    ensures DSN(cfg) == head + " sslmode=disable TimeZone=" + cfg.timezone
  {
  }

  /** The display string of any configuration, given its first five pairs. */
  lemma StringFromHead(cfg: Config, head: string)
    requires "user=" + cfg.user + " password=" + cfg.pass + " dbname=" + cfg.name
             + " port=" + IntToDecimal(cfg.port) + " host=" + cfg.host == head
    ensures String(cfg) == head + " min-pool=" + IntToDecimal(cfg.minConnectionPool)
                           + " max-pool=" + IntToDecimal(cfg.maxConnectionPool)
  {
  }

  lemma Regroup(h: string, x: string, y: string, t: string)
    requires x + y == t
    ensures h + x + y == h + t
  {
  }

  lemma Regroup4(h: string, a: string, b: string, c: string, d: string, t: string)
    requires a + b + c + d == t
    ensures h + a + b + c + d == h + t
  {
  }

  /** The example's connection string, as documented (the literal is split
      after the host only to keep the proof small). */
  lemma ExampleDSN()
    ensures DSN(ExampleConfig)
         == "user=user password=password dbname=mydatabase port=5432 host=localhost"
            + " sslmode=disable TimeZone=Asia/Jakarta"
  {
    assert IntToDecimal(5432) == "5432";
    ExampleHead();
    DSNFromHead(ExampleConfig, "user=user password=password dbname=mydatabase port=5432 host=localhost");
    Regroup("user=user password=password dbname=mydatabase port=5432 host=localhost",
            " sslmode=disable TimeZone=", "Asia/Jakarta", " sslmode=disable TimeZone=Asia/Jakarta");
  }

  /** The example's display string, as documented: min-pool=2 before max-pool=10. */
  lemma ExampleString()
    ensures String(ExampleConfig)
         == "user=user password=password dbname=mydatabase port=5432 host=localhost"
            + " min-pool=2 max-pool=10"
  {
    assert IntToDecimal(5432) == "5432" && IntToDecimal(2) == "2" && IntToDecimal(10) == "10";
    ExampleHead();
    StringFromHead(ExampleConfig, "user=user password=password dbname=mydatabase port=5432 host=localhost");
    assert " min-pool=" + "2" + " max-pool=" + "10" == " min-pool=2 max-pool=10";
    Regroup4("user=user password=password dbname=mydatabase port=5432 host=localhost",
             " min-pool=", "2", " max-pool=", "10", " min-pool=2 max-pool=10");
  }

  /** The part both example strings share. */
  lemma ExampleHead()
    ensures "user=" + "user" + " password=" + "password" + " dbname=" + "mydatabase"
            + " port=" + "5432" + " host=" + "localhost"
         == "user=user password=password dbname=mydatabase port=5432 host=localhost"
  {
    var s1 := "user=" + "user";
    assert s1 == "user=user";
    var s2 := s1 + " password=";
    assert s2 == "user=user password=";
    var s3 := s2 + "password";
    assert s3 == "user=user password=password";
    var s4 := s3 + " dbname=";
    assert s4 == "user=user password=password dbname=";
    var s5 := s4 + "mydatabase";
    assert s5 == "user=user password=password dbname=mydatabase";
    var s6 := s5 + " port=";
    assert s6 == "user=user password=password dbname=mydatabase port=";
    var s7 := s6 + "5432";
    assert s7 == "user=user password=password dbname=mydatabase port=5432";
    var s8 := s7 + " host=";
    assert s8 == "user=user password=password dbname=mydatabase port=5432 host=";
  }
}
