/** The central's discovery filter: `eir_found`, driven by the stack's
    advertising-data parser, and the connectable-type check of `device_found`. */
module AdFilter {
  import opened Ble

  /** The name the central looks for, "buggy-device", as bytes (no NUL). */
  const ScanName: seq<uint8> :=
    [0x62, 0x75, 0x67, 0x67, 0x79, 0x2d, 0x64, 0x65, 0x76, 0x69, 0x63, 0x65]

  /** State shared by the callbacks of one parse; starts zero-initialised. */
  datatype ParseState = ParseState(longnameOk: bool)

  /** A parser callback: sees one element and the state, answers whether to
      continue and the new state. */
  type Callback = (AdElement, ParseState) -> (bool, ParseState)

  /** What a match means: the target name is non-empty and some complete-name
      element carries exactly its bytes. */
  ghost predicate HasTargetName(ad: seq<AdElement>, name: seq<uint8>)
  {
    |name| > 0 && exists i :: 0 <= i < |ad| && ad[i].kind == AdTypeNameComplete && ad[i].data == name
  }

  /** `memcmp(a, b, n) == 0`. */
  predicate MemEqual(a: seq<uint8>, b: seq<uint8>, n: nat)
    requires n <= |a| && n <= |b|
  {
    forall k :: 0 <= k < n ==> a[k] == b[k]
  }

  /** `eir_found`: sets the flag when a complete-name element of the same
      length as the non-empty target compares equal to it. Every branch asks
      the parser to continue. */
  function EirFound(elem: AdElement, st: ParseState, name: seq<uint8>): (r: (bool, ParseState))
    ensures r.0
    ensures r.1.longnameOk <==> st.longnameOk || HasTargetName([elem], name)
  {
    if elem.kind == AdTypeNameComplete then
      if |name| == 0 then (true, st)
      else if |name| != |elem.data| then (true, st)
      else if !MemEqual(elem.data, name, |elem.data|) then (true, st)
      else
        assert elem.data == name;
        assert [elem][0] == elem;
        (true, ParseState(true))
    else (true, st)
  }

  /** The callback `device_found` hands to the parser, fixed to one target name. */
  function EirCallback(name: seq<uint8>): Callback
  {
    (e: AdElement, st: ParseState) => EirFound(e, st, name)
  }

  /** The stack's advertising-data parser: calls `cb` on each element in
      order and stops at the first element for which `cb` answers false. */
  function DataParse(ad: seq<AdElement>, st: ParseState, cb: Callback): ParseState
    decreases |ad|
  {
    if |ad| == 0 then st
    else
      var (more, st') := cb(ad[0], st);
      if more then DataParse(ad[1..], st', cb) else st'
  }

  /** The flag `device_found` reads after parsing one advertisement from a
      zero-initialised state: it is the reference predicate. */
  function LongnameOk(ad: seq<AdElement>, name: seq<uint8>): (r: bool)
    ensures r <==> HasTargetName(ad, name)
  {
    ParseFindsName(ad, ParseState(false), name);
    DataParse(ad, ParseState(false), EirCallback(name)).longnameOk
  }

  /** Only connectable undirected and connectable directed reports are parsed. */
  predicate IsConnectable(advType: uint8)
  {
    advType == AdvTypeAdvInd || advType == AdvTypeAdvDirectInd
  }

  /** The decision in `device_found` to stop scanning and connect. */
  function ShouldConnect(advType: uint8, ad: seq<AdElement>, name: seq<uint8>): (r: bool)
    ensures r <==> IsConnectable(advType) && HasTargetName(ad, name)
    ensures !IsConnectable(advType) ==> !r
  {
    if IsConnectable(advType) then LongnameOk(ad, name) else false
  }

  lemma HasTargetNameCons(ad: seq<AdElement>, name: seq<uint8>)
    requires |ad| > 0
    ensures HasTargetName(ad, name) <==> HasTargetName([ad[0]], name) || HasTargetName(ad[1..], name)
  {
    if HasTargetName(ad, name) {
      var i :| 0 <= i < |ad| && ad[i].kind == AdTypeNameComplete && ad[i].data == name;
      if i > 0 {
        assert ad[1..][i - 1] == ad[i];
      } else {
        assert [ad[0]][0] == ad[0];
      }
    }
    if HasTargetName(ad[1..], name) {
      var j :| 0 <= j < |ad[1..]| && ad[1..][j].kind == AdTypeNameComplete && ad[1..][j].data == name;
      assert ad[j + 1] == ad[1..][j];
    }
  }

  /** Parsing with `eir_found` visits every element, and the flag it leaves is
      the flag it started with OR'ed with the reference predicate: once set it
      is never cleared. */
  lemma {:induction false} ParseFindsName(ad: seq<AdElement>, st: ParseState, name: seq<uint8>)
    ensures DataParse(ad, st, EirCallback(name)).longnameOk <==> st.longnameOk || HasTargetName(ad, name)
    decreases |ad|
  {
    if |ad| > 0 {
      var r := EirFound(ad[0], st, name);
      assert EirCallback(name)(ad[0], st) == r;
      HasTargetNameCons(ad, name);
      ParseFindsName(ad[1..], r.1, name);
    }
  }

  /** Because `eir_found` always continues, parsing a concatenation is parsing
      the first part and then the second from where the first left off. */
  lemma {:induction false} ParseConcat(a: seq<AdElement>, b: seq<AdElement>, st: ParseState, name: seq<uint8>)
    ensures DataParse(a + b, st, EirCallback(name)) == DataParse(b, DataParse(a, st, EirCallback(name)), EirCallback(name))
    decreases |a|
  {
    if |a| > 0 {
      var r := EirFound(a[0], st, name);
      assert EirCallback(name)(a[0], st) == r;
      assert (a + b)[0] == a[0];
      assert (a + b)[1..] == a[1..] + b;
      ParseConcat(a[1..], b, r.1, name);
    } else {
      assert a + b == b;
    }
  }

  /** An empty target name never matches, whatever the advertisement holds. */
  lemma EmptyNameNeverMatches(ad: seq<AdElement>)
    ensures !LongnameOk(ad, [])
  {
  }

  /** The verdict over a concatenation is the OR of the verdicts over its parts. */
  lemma LongnameOkConcat(a: seq<AdElement>, b: seq<AdElement>, name: seq<uint8>)
    ensures LongnameOk(a + b, name) <==> LongnameOk(a, name) || LongnameOk(b, name)
  {
    ParseConcat(a, b, ParseState(false), name);
    ParseFindsName(a, ParseState(false), name);
    ParseFindsName(b, DataParse(a, ParseState(false), EirCallback(name)), name);
    ParseFindsName(b, ParseState(false), name);
  }

  /** The order of the elements does not matter: any rearrangement of an
      advertisement gets the same verdict. */
  lemma LongnameOkOrderIrrelevant(a: seq<AdElement>, b: seq<AdElement>, name: seq<uint8>)
    requires multiset(a) == multiset(b)
    ensures LongnameOk(a, name) == LongnameOk(b, name)
  {
    if HasTargetName(a, name) {
      var i :| 0 <= i < |a| && a[i].kind == AdTypeNameComplete && a[i].data == name;
      assert a[i] in multiset(b);
      var j :| 0 <= j < |b| && b[j] == a[i];
    }
    if HasTargetName(b, name) {
      var i :| 0 <= i < |b| && b[i].kind == AdTypeNameComplete && b[i].data == name;
      assert b[i] in multiset(a);
      var j :| 0 <= j < |a| && a[j] == b[i];
    }
  }
}
