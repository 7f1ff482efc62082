/**
 * The probe generation and the decisions of the XSS scanner (`XSSTester`
 * in ssx.py). The HTTP server is a parameter: a function from what is
 * sent to the response text, or `None` where `requests` raises.
 */
module XssTester {
  import opened Wrappers
  import opened PyStr
  import opened SeqFacts

  /**
   * A Python dict with string keys and values, in insertion order. The
   * dicts of Python never repeat a key (`KeysUnique`).
   */
  type Dict = seq<(string, string)>

  predicate Distinct(names: seq<string>)
  {
    forall i, j :: 0 <= i < j < |names| ==> names[i] != names[j]
  }

  predicate KeysUnique(d: Dict)
  {
    Distinct(Keys(d))
  }

  /** `list(d.keys())` */
  function Keys(d: Dict): (ks: seq<string>)
    ensures |ks| == |d| && forall i :: 0 <= i < |d| ==> ks[i] == d[i].0
  {
    seq(|d|, i requires 0 <= i < |d| => d[i].0)
  }

  /** `d.get(k)` */
  function Get(d: Dict, k: string): Option<string>
  {
    if d == [] then None
    else if d[0].0 == k then Some(d[0].1)
    else Get(d[1..], k)
  }

  /** `d[k] = v`: an existing key keeps its place, a new one goes last. */
  function Put(d: Dict, k: string, v: string): Dict
  {
    if d == [] then [(k, v)]
    else if d[0].0 == k then [(k, v)] + d[1..]
    else [d[0]] + Put(d[1..], k, v)
  }

  lemma {:induction false} GetKeys(d: Dict, k: string)
    ensures Get(d, k).Some? <==> k in Keys(d)
  {
    if d != [] {
      GetKeys(d[1..], k);
      assert Keys(d) == [d[0].0] + Keys(d[1..]);
    }
  }

  /** After `d[k] = v`, `k` maps to `v` and every other key to what it did before. */
  lemma {:induction false} PutGet(d: Dict, k: string, v: string)
    ensures Get(Put(d, k, v), k) == Some(v)
    ensures forall other :: other != k ==> Get(Put(d, k, v), other) == Get(d, other)
  {
    if d != [] && d[0].0 != k {
      PutGet(d[1..], k, v);
      assert ([d[0]] + Put(d[1..], k, v))[1..] == Put(d[1..], k, v);
    }
  }

  /** The key list of a non-empty dict: its first key, then the rest. */
  lemma KeysCons(d: Dict)
    requires d != []
    ensures Keys(d) == [d[0].0] + Keys(d[1..])
  {
  }

  /** An existing key keeps the key list as it was; a new key is added last. */
  lemma {:induction false} PutKeys(d: Dict, k: string, v: string)
    ensures k in Keys(d) ==> Keys(Put(d, k, v)) == Keys(d)
    ensures k !in Keys(d) ==> Keys(Put(d, k, v)) == Keys(d) + [k]
  {
    if d != [] {
      var p := Put(d, k, v);
      KeysCons(d);
      KeysCons(p);
      if d[0].0 == k {
        assert p[1..] == d[1..];
      } else {
        PutKeys(d[1..], k, v);
        assert p[1..] == Put(d[1..], k, v);
        ConcatAssoc([d[0].0], Keys(d[1..]), [k]);
      }
    }
  }

  /** `d[k] = v` keeps the keys unique. */
  lemma PutUnique(d: Dict, k: string, v: string)
    requires KeysUnique(d)
    ensures KeysUnique(Put(d, k, v))
  {
    PutKeys(d, k, v);
  }

  /** `dict(pairs)`: the pairs put in one after another. */
  function DictOf(pairs: seq<(string, string)>): Dict
  {
    if pairs == [] then []
    else
      var n := |pairs| - 1;
      Put(DictOf(pairs[..n]), pairs[n].0, pairs[n].1)
  }

  /** The value of the last pair named `k`, if any. */
  function LastValue(pairs: seq<(string, string)>, k: string): Option<string>
  {
    if pairs == [] then None
    else
      var n := |pairs| - 1;
      if pairs[n].0 == k then Some(pairs[n].1) else LastValue(pairs[..n], k)
  }

  /**
   * `dict(pairs)` has unique keys, and when a name repeats the later value
   * wins.
   */
  lemma {:induction false} DictOfFacts(pairs: seq<(string, string)>)
    ensures KeysUnique(DictOf(pairs))
    ensures forall k :: Get(DictOf(pairs), k) == LastValue(pairs, k)
  {
    if pairs != [] {
      var n := |pairs| - 1;
      DictOfFacts(pairs[..n]);
      PutGet(DictOf(pairs[..n]), pairs[n].0, pairs[n].1);
      PutUnique(DictOf(pairs[..n]), pairs[n].0, pairs[n].1);
    }
  }

  /** A name has a last value exactly when some pair has that name. */
  lemma {:induction false} LastValueFound(pairs: seq<(string, string)>, k: string)
    ensures LastValue(pairs, k).Some? <==> exists i :: 0 <= i < |pairs| && pairs[i].0 == k
  {
    if pairs != [] {
      var n := |pairs| - 1;
      LastValueFound(pairs[..n], k);
      if pairs[n].0 != k && exists i :: 0 <= i < |pairs| && pairs[i].0 == k {
        var i :| 0 <= i < |pairs| && pairs[i].0 == k;
        assert pairs[..n][i].0 == k;
      }
    }
  }

  /** `p.split('=')` as one item of `dict(...)`: it must have exactly two parts. */
  function PairOf(piece: string): Option<(string, string)>
  {
    var parts := Split(piece, '=');
    if |parts| == 2 then Some((parts[0], parts[1])) else None
  }

  /** The items for `dict(...)`, or `None` when one of them has the wrong length. */
  function PairsOf(pieces: seq<string>): (r: Option<seq<(string, string)>>)
    ensures r.Some? <==> forall i :: 0 <= i < |pieces| ==> PairOf(pieces[i]).Some?
    ensures r.Some? ==> |r.value| == |pieces|
    ensures r.Some? ==> forall i :: 0 <= i < |pieces| ==> r.value[i] == PairOf(pieces[i]).value
  {
    if pieces == [] then Some([])
    else
      var n := |pieces| - 1;
      match PairsOf(pieces[..n])
      case None => None
      case Some(init) =>
        match PairOf(pieces[n])
        case None => None
        case Some(p) => Some(init + [p])
  }

  /**
   * `dict(p.split('=') for p in query.split('&'))`, with `Err` where it
   * raises `ValueError`.
   */
  function ParseQuery(query: string): Result<Dict, string>
  {
    match PairsOf(Split(query, '&'))
    case None => Err("dictionary update sequence element has the wrong length")
    case Some(pairs) => Ok(DictOf(pairs))
  }

  /** Each piece holds exactly one '='. */
  predicate OneEqualsEach(pieces: seq<string>)
  {
    forall i :: 0 <= i < |pieces| ==> Count(pieces[i], '=') == 1
  }

  /** All the pieces are pairs exactly when each holds exactly one '='. */
  lemma PiecesArePairs(pieces: seq<string>)
    ensures (forall i :: 0 <= i < |pieces| ==> PairOf(pieces[i]).Some?) <==> OneEqualsEach(pieces)
  {
    forall i | 0 <= i < |pieces| ensures PairOf(pieces[i]).Some? <==> Count(pieces[i], '=') == 1 {
      SplitCount(pieces[i], '=');
    }
  }

  /** The query parses exactly when every '&'-separated piece holds exactly one '='. */
  lemma ParseQueryOk(query: string)
    ensures ParseQuery(query).Ok? <==> OneEqualsEach(Split(query, '&'))
  {
    var pieces := Split(query, '&');
    assert ParseQuery(query).Ok? <==> PairsOf(pieces).Some?;
    PiecesArePairs(pieces);
  }

  /**
   * What a parsed query holds: unique names, each with the value of its
   * last occurrence.
   */
  lemma ParseQueryValues(query: string)
    requires ParseQuery(query).Ok?
    ensures var d := ParseQuery(query).value;
      var pairs := PairsOf(Split(query, '&')).value;
      && KeysUnique(d)
      && forall k :: Get(d, k) == LastValue(pairs, k)
  {
    DictOfFacts(PairsOf(Split(query, '&')).value);
  }

  /** An empty query raises: its one piece has no '='. */
  lemma ParseQueryEmpty()
    ensures ParseQuery("").Err?
  {
    assert Split("", '=') == [""];
    assert Split("", '&') == [""];
  }

  /** A trailing '&' raises: the empty piece after it has no '='. */
  lemma ParseQueryTrailingAmpersand()
    ensures ParseQuery("a=1&").Err?
  {
    assert Split("", '=') == [""];
    SplitCons("a=1", '&', "");
    assert "a=1" + ['&'] + "" == "a=1&";
  }

  /** Two pieces that are pairs give those two pairs. */
  lemma PairsOfTwo(a: string, b: string, pa: (string, string), pb: (string, string))
    requires PairOf(a) == Some(pa) && PairOf(b) == Some(pb)
    ensures PairsOf([a, b]) == Some([pa, pb])
  {
    assert [a][..0] == [];
    assert [] + [pa] == [pa];
    assert PairsOf([a]) == Some([pa]);
    assert [a, b][..1] == [a];
    assert [pa] + [pb] == [pa, pb];
  }

  /** Two pairs with the same name leave one entry, with the second value. */
  lemma DictOfSameName(name: string, first: string, second: string)
    ensures DictOf([(name, first), (name, second)]) == [(name, second)]
  {
    assert [(name, first)][..0] == [];
    assert DictOf([(name, first)]) == [(name, first)];
    assert [(name, first), (name, second)][..1] == [(name, first)];
    assert [(name, first)][1..] == [];
    assert Put([(name, first)], name, second) == [(name, second)] + [];
  }

  /** A piece `name=value` without delimiters in its parts is one pair. */
  lemma PairOfPlain(name: string, value: string)
    requires '&' !in name && '=' !in name && '&' !in value && '=' !in value
    ensures '&' !in name + "=" + value
    ensures PairOf(name + "=" + value) == Some((name, value))
  {
    assert name + "=" + value == name + ['='] + value;
    SplitCons(name, '=', value);
  }

  /** A name given twice keeps the value of its last occurrence. */
  lemma ParseQueryRepeatedName(name: string, first: string, second: string)
    requires '&' !in name && '=' !in name
    requires '&' !in first && '=' !in first && '&' !in second && '=' !in second
    ensures ParseQuery(name + "=" + first + "&" + name + "=" + second) == Ok([(name, second)])
  {
    var p1 := name + "=" + first;
    var p2 := name + "=" + second;
    PairOfPlain(name, first);
    PairOfPlain(name, second);
    assert name + "=" + first + "&" + name + "=" + second == p1 + ['&'] + p2;
    SplitCons(p1, '&', p2);
    var query := p1 + ['&'] + p2;
    assert Split(query, '&') == [p1, p2];
    PairsOfTwo(p1, p2, (name, first), (name, second));
    DictOfSameName(name, first, second);
  }

  /** `target.split('?')[0]`: everything before the first '?'. */
  function BaseUrl(target: string): (base: string)
    ensures '?' !in base
    ensures '?' !in target ==> base == target
    ensures '?' in target ==> base == target[..IndexOf(target, '?')]
  {
    SplitFirst(target, '?');
    Split(target, '?')[0]
  }

  /**
   * `target.split('?')[1]` where the target has a '?': the text between
   * the first '?' and the next one.
   */
  function QueryString(target: string): (query: Option<string>)
    ensures query.Some? <==> '?' in target
    ensures query.Some? ==> '?' !in query.value
    ensures query.Some? ==> query.value == Split(target[IndexOf(target, '?') + 1..], '?')[0]
  {
    SplitFirst(target, '?');
    if '?' in target then Some(Split(target, '?')[1]) else None
  }

  /** `f"{base_url}?{param_name}={quote(payload)}"` */
  function TestUrl(base: string, name: string, quoted: string): string
  {
    base + "?" + name + "=" + quoted
  }

  /**
   * A test URL, read back as the scanner reads a target, gives the same
   * base and a query of just the one parameter, provided the pieces carry
   * none of the delimiters.
   */
  lemma TestUrlRoundTrip(base: string, name: string, quoted: string)
    requires '?' !in base
    requires '?' !in name && '&' !in name && '=' !in name
    requires '?' !in quoted && '&' !in quoted && '=' !in quoted
    ensures BaseUrl(TestUrl(base, name, quoted)) == base
    ensures QueryString(TestUrl(base, name, quoted)) == Some(name + "=" + quoted)
    ensures ParseQuery(name + "=" + quoted) == Ok([(name, quoted)])
  {
    var query := name + "=" + quoted;
    var url := TestUrl(base, name, quoted);
    assert url == base + ['?'] + query;
    assert '?' !in query;
    SplitCons(base, '?', query);
    assert '&' !in query;
    assert query == name + ['='] + quoted;
    SplitCons(name, '=', quoted);
    assert Split(query, '&') == [query];
    assert PairOf(query) == Some((name, quoted));
    assert PairsOf([query]) == Some([(name, quoted)]) by {
      assert [query][..0] == [];
      assert [] + [(name, quoted)] == [(name, quoted)];
    }
    assert DictOf([(name, quoted)]) == [(name, quoted)] by {
      assert [(name, quoted)][..0] == [];
    }
  }

  /** The names a parsed query gives carry none of the delimiters. */
  lemma ParsedNamesPlain(query: string)
    requires '?' !in query && ParseQuery(query).Ok?
    ensures forall k :: k in Keys(ParseQuery(query).value) ==> '?' !in k && '&' !in k && '=' !in k
  {
    var d := ParseQuery(query).value;
    var pieces := Split(query, '&');
    var pairs := PairsOf(pieces).value;
    SplitPiecesFree(query, '&', '?');
    forall k | k in Keys(d) ensures '?' !in k && '&' !in k && '=' !in k {
      DictOfFacts(pairs);
      GetKeys(d, k);
      LastValueFound(pairs, k);
      var i :| 0 <= i < |pairs| && pairs[i].0 == k;
      SplitPiecesFree(pieces[i], '=', '?');
      SplitPiecesFree(pieces[i], '=', '&');
    }
  }

  /** A split of a string without `c` gives pieces without `c`. */
  lemma {:induction false} SplitPiecesFree(s: string, sep: char, c: char)
    requires c !in s
    ensures forall k :: 0 <= k < |Split(s, sep)| ==> c !in Split(s, sep)[k]
    decreases |s|
  {
    if sep in s {
      var i := IndexOf(s, sep);
      SplitPiecesFree(s[i + 1..], sep, c);
    }
  }

  /** The fixed payloads, tried in this order. */
  const Payloads: seq<string> := [
    "<script>alert(\"XSS\")</script>",
    "<img src=x onerror=alert(\"XSS\")>",
    "\" onmouseover=\"alert('XSS')",
    "javascript:alert(\"XSS\")",
    "<svg onload=alert(\"XSS\")>",
    "<body onload=alert(\"XSS\")>"
  ]

  /** Six payloads, all non-empty; the third and the fourth have no '<'. */
  lemma PayloadsFacts()
    ensures |Payloads| == 6
    ensures forall k :: 0 <= k < |Payloads| ==> Payloads[k] != ""
    ensures '<' !in Payloads[2] && '<' !in Payloads[3]
  {
  }

  /** One entry of `vulnerable_params`. */
  datatype Finding = Finding(url: string, parameter: string, payload: string)

  /** `payload.replace('<', '&lt;')` */
  function Escape(payload: string): (e: string)
    ensures |e| >= |payload|
    ensures '<' !in e
    ensures '<' !in payload ==> e == payload
  {
    ReplaceChar(payload, '<', "&lt;")
  }

  /** Escaping is `'&lt;'.join(payload.split('<'))`: the text between the '<'s is kept as it is. */
  lemma EscapeIsJoinSplit(payload: string)
    ensures Escape(payload) == Join(Split(payload, '<'), "&lt;")
  {
    ReplaceCharIsJoinSplit(payload, '<', "&lt;");
  }

  /** Escaping works character by character: '<' becomes "&lt;", anything else stays. */
  lemma EscapeAppend(a: string, b: string)
    ensures Escape(a + b) == Escape(a) + Escape(b)
  {
    ReplaceCharAppend(a, b, '<', "&lt;");
  }

  lemma EscapeOne(x: char)
    ensures Escape([x]) == if x == '<' then "&lt;" else [x]
  {
    ReplaceCharOne(x, '<', "&lt;");
  }

  /** The form check: a response came back, and it lacks the escaped payload. */
  predicate FormHit(payload: string, response: Option<string>)
  {
    response.Some? && !Contains(response.value, Escape(payload))
  }

  /** The URL check: a response came back, and it holds the payload as it was sent. */
  predicate UrlHit(payload: string, response: Option<string>)
  {
    response.Some? && Contains(response.value, payload)
  }

  /** The form data of probe (i, j): the dict with key `i` given payload `j`. */
  function FormData(params: Dict, payloads: seq<string>, i: nat, j: nat): Dict
    requires i < |params| && j < |payloads|
  {
    Put(params, params[i].0, payloads[j])
  }

  /**
   * The form data of a probe differs from the original only at the probed
   * key, which holds the payload; the keys and their order stay as they
   * were.
   */
  lemma FormDataOneChange(params: Dict, payloads: seq<string>, i: nat, j: nat)
    requires KeysUnique(params) && i < |params| && j < |payloads|
    ensures var name := params[i].0;
      var data := FormData(params, payloads, i, j);
      && Keys(data) == Keys(params)
      && KeysUnique(data)
      && Get(data, name) == Some(payloads[j])
      && forall other :: other != name ==> Get(data, other) == Get(params, other)
  {
    var name := params[i].0;
    assert name == Keys(params)[i];
    PutGet(params, name, payloads[j]);
    PutKeys(params, name, payloads[j]);
  }

  /** What probe (i, j) of `test_form` appends, given the server `post`. */
  function FormProbe(url: string, params: Dict, payloads: seq<string>, post: Dict -> Option<string>,
                     i: nat, j: nat): seq<Finding>
    requires i < |params| && j < |payloads|
  {
    var payload := payloads[j];
    if FormHit(payload, post(FormData(params, payloads, i, j))) then [Finding(url, params[i].0, payload)] else []
  }

  /** What `test_form` appends for key `i` once it has tried the first `m` payloads on it. */
  function FormKeyFindings(url: string, params: Dict, payloads: seq<string>, post: Dict -> Option<string>,
                           i: nat, m: nat): seq<Finding>
    requires i < |params| && m <= |payloads|
  {
    if m == 0 then [] else FormKeyFindings(url, params, payloads, post, i, m - 1) + FormProbe(url, params, payloads, post, i, m - 1)
  }

  /**
   * What `test_form` has appended once it has tried every payload on the
   * first `n` keys: key by key, and within a key payload by payload.
   */
  function FormFindings(url: string, params: Dict, payloads: seq<string>, post: Dict -> Option<string>,
                        n: nat): seq<Finding>
    requires n <= |params|
  {
    if n == 0 then [] else FormFindings(url, params, payloads, post, n - 1) + FormKeyFindings(url, params, payloads, post, n - 1, |payloads|)
  }

  /** A finding recorded for key `i` comes from one of the first `m` payloads tried on it. */
  lemma {:induction false} FormKeyFindingsFrom(url: string, params: Dict, payloads: seq<string>, post: Dict -> Option<string>, i: nat, m: nat, f: Finding) returns (b: nat)
    requires i < |params| && m <= |payloads| && f in FormKeyFindings(url, params, payloads, post, i, m)
    ensures b < m && f in FormProbe(url, params, payloads, post, i, b)
  {
    if f in FormProbe(url, params, payloads, post, i, m - 1) {
      b := m - 1;
    } else {
      b := FormKeyFindingsFrom(url, params, payloads, post, i, m - 1, f);
    }
  }

  /** What probe (i, b) records is kept once a later payload on key `i` has been tried. */
  lemma {:induction false} FormKeyFindingsHas(url: string, params: Dict, payloads: seq<string>, post: Dict -> Option<string>, i: nat, m: nat, b: nat, f: Finding)
    requires i < |params| && b < m <= |payloads| && f in FormProbe(url, params, payloads, post, i, b)
    ensures f in FormKeyFindings(url, params, payloads, post, i, m)
  {
    if b < m - 1 {
      FormKeyFindingsHas(url, params, payloads, post, i, m - 1, b, f);
    }
  }

  /** A finding recorded for the first `n` keys comes from one of them. */
  lemma {:induction false} FormFindingsFrom(url: string, params: Dict, payloads: seq<string>, post: Dict -> Option<string>, n: nat, f: Finding) returns (a: nat)
    requires n <= |params| && f in FormFindings(url, params, payloads, post, n)
    ensures a < n && f in FormKeyFindings(url, params, payloads, post, a, |payloads|)
  {
    if f in FormKeyFindings(url, params, payloads, post, n - 1, |payloads|) {
      a := n - 1;
    } else {
      a := FormFindingsFrom(url, params, payloads, post, n - 1, f);
    }
  }

  /** What key `a` records is kept once later keys have been probed. */
  lemma {:induction false} FormFindingsHas(url: string, params: Dict, payloads: seq<string>, post: Dict -> Option<string>, n: nat, a: nat, f: Finding)
    requires a < n <= |params| && f in FormKeyFindings(url, params, payloads, post, a, |payloads|)
    ensures f in FormFindings(url, params, payloads, post, n)
  {
    if a < n - 1 {
      FormFindingsHas(url, params, payloads, post, n - 1, a, f);
    }
  }

  /**
   * A form finding is recorded for the first `n` keys exactly when some
   * probe (a, b) of them got a response lacking the escaped payload; it
   * names that probe's key and payload.
   */
  lemma FormFindingsMembers(url: string, params: Dict, payloads: seq<string>, post: Dict -> Option<string>, n: nat, f: Finding)
    requires n <= |params|
    ensures f in FormFindings(url, params, payloads, post, n) <==>
      exists a: nat, b: nat :: a < n && b < |payloads| && f in FormProbe(url, params, payloads, post, a, b)
  {
    if f in FormFindings(url, params, payloads, post, n) {
      var a := FormFindingsFrom(url, params, payloads, post, n, f);
      var b := FormKeyFindingsFrom(url, params, payloads, post, a, |payloads|, f);
    }
    if exists a: nat, b: nat :: a < n && b < |payloads| && f in FormProbe(url, params, payloads, post, a, b) {
      var a: nat, b: nat :| a < n && b < |payloads| && f in FormProbe(url, params, payloads, post, a, b);
      FormKeyFindingsHas(url, params, payloads, post, a, |payloads|, b, f);
      FormFindingsHas(url, params, payloads, post, n, a, f);
    }
  }

  /** What probe (i, j) of `test_url_params` appends, given the server `get`. */
  function UrlProbe(base: string, names: seq<string>, payloads: seq<string>, quote: string -> string,
                    get: string -> Option<string>, i: nat, j: nat): seq<Finding>
    requires i < |names| && j < |payloads|
  {
    var payload := payloads[j];
    var url := TestUrl(base, names[i], quote(payload));
    if UrlHit(payload, get(url)) then [Finding(url, names[i], payload)] else []
  }

  /** What `test_url_params` appends for name `i` once it has tried the first `m` payloads on it. */
  function UrlNameFindings(base: string, names: seq<string>, payloads: seq<string>, quote: string -> string,
                           get: string -> Option<string>, i: nat, m: nat): seq<Finding>
    requires i < |names| && m <= |payloads|
  {
    if m == 0 then [] else UrlNameFindings(base, names, payloads, quote, get, i, m - 1) + UrlProbe(base, names, payloads, quote, get, i, m - 1)
  }

  /** What `test_url_params` has appended once it has tried every payload on the first `n` names. */
  function UrlFindings(base: string, names: seq<string>, payloads: seq<string>, quote: string -> string,
                       get: string -> Option<string>, n: nat): seq<Finding>
    requires n <= |names|
  {
    if n == 0 then [] else UrlFindings(base, names, payloads, quote, get, n - 1) + UrlNameFindings(base, names, payloads, quote, get, n - 1, |payloads|)
  }

  /** A finding recorded for name `i` comes from one of the first `m` payloads tried on it. */
  lemma {:induction false} UrlNameFindingsFrom(base: string, names: seq<string>, payloads: seq<string>, quote: string -> string, get: string -> Option<string>, i: nat, m: nat, f: Finding) returns (b: nat)
    requires i < |names| && m <= |payloads| && f in UrlNameFindings(base, names, payloads, quote, get, i, m)
    ensures b < m && f in UrlProbe(base, names, payloads, quote, get, i, b)
  {
    if f in UrlProbe(base, names, payloads, quote, get, i, m - 1) {
      b := m - 1;
    } else {
      b := UrlNameFindingsFrom(base, names, payloads, quote, get, i, m - 1, f);
    }
  }

  /** What probe (i, b) records is kept once a later payload on name `i` has been tried. */
  lemma {:induction false} UrlNameFindingsHas(base: string, names: seq<string>, payloads: seq<string>, quote: string -> string, get: string -> Option<string>, i: nat, m: nat, b: nat, f: Finding)
    requires i < |names| && b < m <= |payloads| && f in UrlProbe(base, names, payloads, quote, get, i, b)
    ensures f in UrlNameFindings(base, names, payloads, quote, get, i, m)
  {
    if b < m - 1 {
      UrlNameFindingsHas(base, names, payloads, quote, get, i, m - 1, b, f);
    }
  }

  /** A finding recorded for the first `n` names comes from one of them. */
  lemma {:induction false} UrlFindingsFrom(base: string, names: seq<string>, payloads: seq<string>, quote: string -> string, get: string -> Option<string>, n: nat, f: Finding) returns (a: nat)
    requires n <= |names| && f in UrlFindings(base, names, payloads, quote, get, n)
    ensures a < n && f in UrlNameFindings(base, names, payloads, quote, get, a, |payloads|)
  {
    if f in UrlNameFindings(base, names, payloads, quote, get, n - 1, |payloads|) {
      a := n - 1;
    } else {
      a := UrlFindingsFrom(base, names, payloads, quote, get, n - 1, f);
    }
  }

  /** What name `a` records is kept once later names have been probed. */
  lemma {:induction false} UrlFindingsHas(base: string, names: seq<string>, payloads: seq<string>, quote: string -> string, get: string -> Option<string>, n: nat, a: nat, f: Finding)
    requires a < n <= |names| && f in UrlNameFindings(base, names, payloads, quote, get, a, |payloads|)
    ensures f in UrlFindings(base, names, payloads, quote, get, n)
  {
    if a < n - 1 {
      UrlFindingsHas(base, names, payloads, quote, get, n - 1, a, f);
    }
  }

  /**
   * A URL finding is recorded for the first `n` names exactly when some
   * probe (a, b) of them got a response reflecting the payload; its URL is
   * that probe's test URL.
   */
  lemma UrlFindingsMembers(base: string, names: seq<string>, payloads: seq<string>, quote: string -> string, get: string -> Option<string>, n: nat, f: Finding)
    requires n <= |names|
    ensures f in UrlFindings(base, names, payloads, quote, get, n) <==>
      exists a: nat, b: nat :: a < n && b < |payloads| && f in UrlProbe(base, names, payloads, quote, get, a, b)
  {
    if f in UrlFindings(base, names, payloads, quote, get, n) {
      var a := UrlFindingsFrom(base, names, payloads, quote, get, n, f);
      var b := UrlNameFindingsFrom(base, names, payloads, quote, get, a, |payloads|, f);
    }
    if exists a: nat, b: nat :: a < n && b < |payloads| && f in UrlProbe(base, names, payloads, quote, get, a, b) {
      var a: nat, b: nat :| a < n && b < |payloads| && f in UrlProbe(base, names, payloads, quote, get, a, b);
      UrlNameFindingsHas(base, names, payloads, quote, get, a, |payloads|, b, f);
      UrlFindingsHas(base, names, payloads, quote, get, n, a, f);
    }
  }

  /**
   * What `test_url_params` appends for a target: nothing without a '?' or
   * when the query does not parse, otherwise the findings of every
   * (name, payload) probe.
   */
  function UrlScan(target: string, payloads: seq<string>, quote: string -> string,
                   get: string -> Option<string>): seq<Finding>
  {
    match QueryString(target)
    case None => []
    case Some(query) =>
      match ParseQuery(query)
      case Err(_) => []
      case Ok(params) => UrlFindings(BaseUrl(target), Keys(params), payloads, quote, get, |params|)
  }

  /**
   * Every URL finding carries a test URL that reads back as the target's
   * base with only the probed parameter, when `quote` leaves none of the
   * delimiters in what it returns.
   */
  lemma UrlScanOneParameter(target: string, payloads: seq<string>, quote: string -> string,
                            get: string -> Option<string>)
    requires forall p :: p in payloads ==> '?' !in quote(p) && '&' !in quote(p) && '=' !in quote(p)
    ensures forall f :: f in UrlScan(target, payloads, quote, get) ==>
      && BaseUrl(f.url) == BaseUrl(target)
      && QueryString(f.url).Some?
      && ParseQuery(QueryString(f.url).value) == Ok([(f.parameter, quote(f.payload))])
  {
    var query := QueryString(target);
    if query.Some? && ParseQuery(query.value).Ok? {
      var params := ParseQuery(query.value).value;
      var names := Keys(params);
      var base := BaseUrl(target);
      ParsedNamesPlain(query.value);
      forall f | f in UrlScan(target, payloads, quote, get)
        ensures BaseUrl(f.url) == base
        ensures QueryString(f.url) == Some(f.parameter + "=" + quote(f.payload))
        ensures ParseQuery(f.parameter + "=" + quote(f.payload)) == Ok([(f.parameter, quote(f.payload))])
      {
        var a := UrlFindingsFrom(base, names, payloads, quote, get, |names|, f);
        var b := UrlNameFindingsFrom(base, names, payloads, quote, get, a, |payloads|, f);
        assert f == Finding(TestUrl(base, names[a], quote(payloads[b])), names[a], payloads[b]);
        assert payloads[b] in payloads;
        TestUrlRoundTrip(base, names[a], quote(payloads[b]));
      }
    }
  }

  /** A target without '?' is not probed at all. */
  lemma NoQueryNoProbe(target: string, payloads: seq<string>, quote: string -> string,
                       get: string -> Option<string>)
    requires '?' !in target
    ensures UrlScan(target, payloads, quote, get) == []
  {
  }

  /**
   * The form check flags a blank page for every non-empty payload: the
   * escaped payload is never empty, so it is never found in "".
   */
  lemma BlankPageFlagged(payload: string)
    requires payload != ""
    ensures FormHit(payload, Some(""))
  {
    var e := Escape(payload);
    assert forall i :: !OccursAt("", e, i);
  }

  /**
   * For a payload without '<', the form check flags a response exactly
   * when the payload is NOT reflected, the opposite of the URL check.
   */
  lemma PlainPayloadInverted(payload: string, text: string)
    requires '<' !in payload
    ensures FormHit(payload, Some(text)) <==> !UrlHit(payload, Some(text))
  {
  }

  /** The scanner of `ssx.py`: its target, its payloads and what it has found so far. */
  class Scanner {
    const target: string
    const payloads: seq<string>
    var vulnerableParams: seq<Finding>

    /** `XSSTester(target_url)`: the fixed payloads, nothing found yet. */
    constructor (target: string)
      ensures this.target == target && payloads == Payloads && vulnerableParams == []
    {
      this.target := target;
      payloads := Payloads;
      vulnerableParams := [];
    }

    /**
     * `test_form(form_url, params)` against the server `post`: every key
     * is probed with every payload, each time on a fresh copy of `params`
     * with that one key replaced, and a finding is appended per flagged
     * response. Probes whose request raises record nothing.
     */
    method TestForm(formUrl: string, params: Dict, post: Dict -> Option<string>)
      requires KeysUnique(params)
      modifies this
      ensures vulnerableParams == old(vulnerableParams) + FormFindings(formUrl, params, payloads, post, |params|)
    {
      for i := 0 to |params|
        invariant vulnerableParams == old(vulnerableParams) + FormFindings(formUrl, params, payloads, post, i)
      {
        ProbeFormKey(formUrl, params, post, i);
        ConcatAssoc(old(vulnerableParams), FormFindings(formUrl, params, payloads, post, i),
                    FormKeyFindings(formUrl, params, payloads, post, i, |payloads|));
      }
    }

    /** The inner loop of `test_form`: every payload on key `i`. */
    method ProbeFormKey(formUrl: string, params: Dict, post: Dict -> Option<string>, i: nat)
      requires i < |params|
      modifies this
      ensures vulnerableParams == old(vulnerableParams) + FormKeyFindings(formUrl, params, payloads, post, i, |payloads|)
    {
      var name := params[i].0;
      for j := 0 to |payloads|
        invariant vulnerableParams == old(vulnerableParams) + FormKeyFindings(formUrl, params, payloads, post, i, j)
      {
        var payload := payloads[j];
        var testParams := Put(params, name, payload);
        var response := post(testParams);
        ConcatAssoc(old(vulnerableParams), FormKeyFindings(formUrl, params, payloads, post, i, j),
                    FormProbe(formUrl, params, payloads, post, i, j));
        if FormHit(payload, response) {
          vulnerableParams := vulnerableParams + [Finding(formUrl, name, payload)];
        }
      }
    }

    /**
     * `test_url_params()` against the server `get`, with `quote` for
     * `urllib.parse.quote`. `failure` is the `ValueError` that a malformed
     * query raises out of the method before any probe.
     */
    method TestUrlParams(quote: string -> string, get: string -> Option<string>) returns (failure: Option<string>)
      modifies this
      ensures failure.Some? <==> QueryString(target).Some? && ParseQuery(QueryString(target).value).Err?
      ensures vulnerableParams == old(vulnerableParams) + UrlScan(target, payloads, quote, get)
    {
      failure := None;
      var base := BaseUrl(target);
      if '?' in target {
        var query := QueryString(target).value;
        var parsed := ParseQuery(query);
        if parsed.Err? {
          failure := Some(parsed.error);
          return;
        }
        ProbeUrls(base, Keys(parsed.value), quote, get);
      }
    }

    /** The outer loop of `test_url_params`: every parsed name in turn. */
    method ProbeUrls(base: string, names: seq<string>, quote: string -> string, get: string -> Option<string>)
      modifies this
      ensures vulnerableParams == old(vulnerableParams) + UrlFindings(base, names, payloads, quote, get, |names|)
    {
      for i := 0 to |names|
        invariant vulnerableParams == old(vulnerableParams) + UrlFindings(base, names, payloads, quote, get, i)
      {
        ProbeUrlName(base, names, quote, get, i);
        ConcatAssoc(old(vulnerableParams), UrlFindings(base, names, payloads, quote, get, i),
                    UrlNameFindings(base, names, payloads, quote, get, i, |payloads|));
      }
    }

    /** The inner loop of `test_url_params`: every payload on name `i`. */
    method ProbeUrlName(base: string, names: seq<string>, quote: string -> string, get: string -> Option<string>, i: nat)
      requires i < |names|
      modifies this
      ensures vulnerableParams == old(vulnerableParams) + UrlNameFindings(base, names, payloads, quote, get, i, |payloads|)
    {
      var name := names[i];
      for j := 0 to |payloads|
        invariant vulnerableParams == old(vulnerableParams) + UrlNameFindings(base, names, payloads, quote, get, i, j)
      {
        var payload := payloads[j];
        var testUrl := TestUrl(base, name, quote(payload));
        var response := get(testUrl);
        ConcatAssoc(old(vulnerableParams), UrlNameFindings(base, names, payloads, quote, get, i, j),
                    UrlProbe(base, names, payloads, quote, get, i, j));
        if UrlHit(payload, response) {
          vulnerableParams := vulnerableParams + [Finding(testUrl, name, payload)];
        }
      }
    }
  }
}
