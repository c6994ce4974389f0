/** RTP codecs from the caps of a depayloader (plugins/pjsip/pj-codec-utils.cpp): one structure with
    several values for a field stands for every combination of values. */
module CodecUtils {

  datatype Codec = Codec(encoding: string, payload: int, media: string, clockRate: int)

  const BLANK := Codec("", -1, "", -1)

  /** One field and the value it is to take. */
  datatype Field = Encoding(name: string) | Payload(pt: int) | Media(kind: string) | ClockRate(rate: int)

  function With(c: Codec, f: Field): Codec {
    match f
    case Encoding(name) => c.(encoding := name)
    case Payload(pt) => c.(payload := pt)
    case Media(kind) => c.(media := kind)
    case ClockRate(rate) => c.(clockRate := rate)
  }

  function AllWith(codecs: seq<Codec>, f: Field): seq<Codec> {
    seq(|codecs|, i requires 0 <= i < |codecs| => With(codecs[i], f))
  }

  /** One copy of the codecs for each of the values. */
  function Expand(codecs: seq<Codec>, fields: seq<Field>): seq<Codec> {
    if fields == [] then [] else Expand(codecs, fields[..|fields| - 1]) + AllWith(codecs, fields[|fields| - 1])
  }

  datatype Lists = Lists(encodings: seq<Field>, payloads: seq<Field>, medias: seq<Field>, rates: seq<Field>)
  {
    /** The fields are of the kinds their lists say. */
    predicate Valid() {
      && (forall f :: f in encodings ==> f.Encoding?) && (forall f :: f in payloads ==> f.Payload?)
      && (forall f :: f in medias ==> f.Media?) && (forall f :: f in rates ==> f.ClockRate?)
    }
  }

  function FirstTwo(l: Lists): seq<Codec> { Expand(Expand([BLANK], l.encodings), l.payloads) }

  function FirstThree(l: Lists): seq<Codec> { Expand(FirstTwo(l), l.medias) }

  function Combinations(l: Lists): seq<Codec> { Expand(FirstThree(l), l.rates) }

  /** Where each copy goes: value v of a list over n codecs fills the v-th stretch of n. */
  lemma {:induction false} ExpandAt(codecs: seq<Codec>, fields: seq<Field>, v: nat, i: nat)
    requires v < |fields| && i < |codecs|
    ensures |Expand(codecs, fields)| == |fields| * |codecs|
    ensures v * |codecs| + i < |fields| * |codecs|
    ensures Expand(codecs, fields)[v * |codecs| + i] == With(codecs[i], fields[v])
    decreases |fields|
  {
    var n, k := |codecs|, |fields| - 1;
    ExpandLength(codecs, fields);
    ExpandLength(codecs, fields[..k]);
    StretchInRange(k, n, v, i);
    if v < k {
      ExpandAt(codecs, fields[..k], v, i);
    }
  }

  lemma {:induction false} StretchInRange(k: nat, n: nat, v: nat, i: nat)
    requires v <= k && i < n
    ensures v < k ==> v * n + i < k * n
    ensures v * n + i < (k + 1) * n == k * n + n
  {
    if v < k {
      assert (v + 1) * n <= k * n;
    }
  }

  lemma {:induction false} ExpandLength(codecs: seq<Codec>, fields: seq<Field>)
    ensures |Expand(codecs, fields)| == |fields| * |codecs|
    decreases |fields|
  {
    if fields != [] {
      ExpandLength(codecs, fields[..|fields| - 1]);
      assert |fields| * |codecs| == (|fields| - 1) * |codecs| + |codecs|;
    }
  }

  /** The sizes of the result and of the three lists on the way to it. */
  lemma {:induction false} Lengths(l: Lists)
    ensures |Expand([BLANK], l.encodings)| == |l.encodings|
    ensures |FirstTwo(l)| == |l.payloads| * |l.encodings|
    ensures |FirstThree(l)| == |l.medias| * (|l.payloads| * |l.encodings|)
    ensures |Combinations(l)| == |l.rates| * (|l.medias| * (|l.payloads| * |l.encodings|))
  {
    ExpandLength([BLANK], l.encodings);
    ExpandLength(Expand([BLANK], l.encodings), l.payloads);
    ExpandLength(FirstTwo(l), l.medias);
    ExpandLength(FirstThree(l), l.rates);
  }

  /** A choice of one value from each list. */
  datatype Choice = Choice(e: nat, p: nat, m: nat, r: nat)
  {
    predicate Of(l: Lists) {
      e < |l.encodings| && p < |l.payloads| && m < |l.medias| && r < |l.rates|
    }

    function Row(l: Lists): nat { r * |l.medias| + m }

    function Cell(l: Lists): nat { Row(l) * |l.payloads| + p }

    /** Its place in the result, ((r * |M| + m) * |P| + p) * |E| + e. */
    function Index(l: Lists): nat { Cell(l) * |l.encodings| + e }
  }

  lemma {:induction false} Distribute(v: nat, k: nat, w: nat, n: nat)
    ensures v * (k * n) + w * n == (v * k + w) * n
  {
    assert v * (k * n) == v * k * n;
  }

  lemma {:induction false} Nested(e: nat, ne: nat, p: nat, np: nat, m: nat, nm: nat, r: nat)
    ensures r * (nm * (np * ne)) + (m * (np * ne) + (p * ne + e)) == ((r * nm + m) * np + p) * ne + e
  {
    Distribute(r, nm, m, np * ne);
    Distribute(r * nm + m, np, p, ne);
  }

  /** Where a copy goes, when the sizes are known. */
  lemma {:induction false} CopyAt(codecs: seq<Codec>, fields: seq<Field>, v: nat, i: nat, place: int)
    requires v < |fields| && i < |codecs| && place == v * |codecs| + i
    ensures 0 <= place < |Expand(codecs, fields)|
    ensures Expand(codecs, fields)[place] == With(codecs[i], fields[v])
  {
    ExpandAt(codecs, fields, v, i);
  }

  /** Every choice of one encoding name, payload, media and clock rate is in the result, at its index. */
  lemma {:induction false} CombinationAt(l: Lists, c: Choice)
    requires l.Valid() && c.Of(l)
    ensures c.Index(l) < |Combinations(l)|
    ensures Combinations(l)[c.Index(l)] ==
      Codec(l.encodings[c.e].name, l.payloads[c.p].pt, l.medias[c.m].kind, l.rates[c.r].rate)
  {
    ghost var place := c.Index(l);
    ghost var i2, i3 := IndexIs(l, c);
    CombinationAtPlace(l, c, i2, i3, place);
  }

  lemma {:induction false} IndexIs(l: Lists, c: Choice) returns (i2: int, i3: int)
    ensures i2 == c.p * |Expand([BLANK], l.encodings)| + c.e
    ensures i3 == c.m * |FirstTwo(l)| + i2
    ensures c.Index(l) == c.r * |FirstThree(l)| + i3
  {
    i2 := c.p * |l.encodings| + c.e;
    i3 := c.m * (|l.payloads| * |l.encodings|) + i2;
    Lengths(l);
    Nested(c.e, |l.encodings|, c.p, |l.payloads|, c.m, |l.medias|, c.r);
  }

  lemma {:induction false} CombinationAtPlace(l: Lists, c: Choice, i2: int, i3: int, place: int)
    requires l.Valid() && c.Of(l)
    requires i2 == c.p * |Expand([BLANK], l.encodings)| + c.e
    requires i3 == c.m * |FirstTwo(l)| + i2
    requires place == c.r * |FirstThree(l)| + i3
    ensures 0 <= place < |Combinations(l)|
    ensures Combinations(l)[place] ==
      Codec(l.encodings[c.e].name, l.payloads[c.p].pt, l.medias[c.m].kind, l.rates[c.r].rate)
  {
    var first := Expand([BLANK], l.encodings);
    CopyAt([BLANK], l.encodings, c.e, 0, c.e);
    CopyAt(first, l.payloads, c.p, c.e, i2);
    CopyAt(FirstTwo(l), l.medias, c.m, i2, i3);
    CopyAt(FirstThree(l), l.rates, c.r, i3, place);
    assert l.encodings[c.e].Encoding? && l.payloads[c.p].Payload? && l.medias[c.m].Media? && l.rates[c.r].ClockRate?;
  }

  lemma {:induction false} Unique(v: nat, i: nat, w: nat, j: nat, n: nat)
    requires i < n && j < n && v * n + i == w * n + j
    ensures v == w && i == j
  {
    if v < w {
      StretchInRange(w, n, v, i);
    } else if w < v {
      StretchInRange(v, n, w, j);
    }
  }

  lemma {:induction false} Divide(x: nat, n: nat, k: nat) returns (v: nat, i: nat)
    requires x < k * n
    ensures v < k && i < n && x == v * n + i
    decreases k
  {
    if x < n {
      v, i := 0, x;
    } else {
      assert k * n == (k - 1) * n + n;
      v, i := Divide(x - n, n, k - 1);
      v := v + 1;
    }
  }

  /** And every place in the result is that of exactly one choice. */
  lemma {:induction false} EachPlaceIsOneChoice(l: Lists, i: nat) returns (c: Choice)
    requires i < |Combinations(l)|
    ensures c.Of(l) && c.Index(l) == i
    ensures forall d: Choice :: d.Of(l) && d.Index(l) == i ==> d == c
  {
    Lengths(l);
    Nested(0, |l.encodings|, 0, |l.payloads|, 0, |l.medias|, |l.rates|);
    var x, e := Divide(i, |l.encodings|, (|l.rates| * |l.medias|) * |l.payloads|);
    var y, p := Divide(x, |l.payloads|, |l.rates| * |l.medias|);
    var r, m := Divide(y, |l.medias|, |l.rates|);
    c := Choice(e, p, m, r);
    forall d: Choice | d.Of(l) && d.Index(l) == i ensures d == c {
      SamePlaceSameChoice(l, c, d);
    }
  }

  lemma {:induction false} SamePlaceSameChoice(l: Lists, c: Choice, d: Choice)
    requires c.Of(l) && d.Of(l) && c.Index(l) == d.Index(l)
    ensures c == d
  {
    SameDigits(c, d, c.Cell(l), d.Cell(l), c.Row(l), d.Row(l), l);
  }

  lemma {:induction false} SameDigits(c: Choice, d: Choice, x: nat, x': nat, y: nat, y': nat, l: Lists)
    requires c.Of(l) && d.Of(l) && x * |l.encodings| + c.e == x' * |l.encodings| + d.e
    requires x == y * |l.payloads| + c.p && x' == y' * |l.payloads| + d.p
    requires y == c.r * |l.medias| + c.m && y' == d.r * |l.medias| + d.m
    ensures c == d
  {
    Unique(x, c.e, x', d.e, |l.encodings|);
    Unique(y, c.p, y', d.p, |l.payloads|);
    Unique(c.r, c.m, d.r, d.m, |l.medias|);
  }

  // ---- The fields of a structure

  datatype Text = NoText | OneText(text: string) | Texts(texts: seq<string>) | OtherText
  datatype Number = NoNumber | OneNumber(n: int) | Numbers(ns: seq<int>) | Range(low: int, high: int) | OtherNumber

  function TextValues(t: Text): seq<string> {
    match t
    case NoText => [NULL_NAME]
    case OneText(text) => [text]
    case Texts(texts) => texts
    case OtherText => []
  }

  function NumberValues(n: Number): seq<int> {
    match n
    case OneNumber(k) => [k]
    case Numbers(ns) => ns
    case Range(low, high) => [high]
    case _ => []
  }

  datatype Structure = Structure(encodingName: Text, payload: Number, media: Text, clockRate: Number)

  function ListsOf(s: Structure): (l: Lists)
    ensures l.Valid()
  {
    var names, pts := TextValues(s.encodingName), NumberValues(s.payload);
    var kinds, rates := TextValues(s.media), NumberValues(s.clockRate);
    Lists(seq(|names|, i requires 0 <= i < |names| => Encoding(names[i])),
          seq(|pts|, i requires 0 <= i < |pts| => Payload(pts[i])),
          seq(|kinds|, i requires 0 <= i < |kinds| => Media(kinds[i])),
          seq(|rates|, i requires 0 <= i < |rates| => ClockRate(rates[i])))
  }

  /** A structure gives no codec exactly when one of its fields has no value. A missing name or media has one,
      "null"; a missing payload or clock rate has none. */
  lemma {:induction false} NoCodecIff(s: Structure)
    ensures Combinations(ListsOf(s)) == [] <==>
      || s.encodingName == OtherText || s.encodingName == Texts([])
      || s.media == OtherText || s.media == Texts([])
      || s.payload in {NoNumber, OtherNumber, Numbers([])}
      || s.clockRate in {NoNumber, OtherNumber, Numbers([])}
  {
    var l := ListsOf(s);
    Lengths(l);
    ProductIsZeroIff(|l.payloads|, |l.encodings|);
    ProductIsZeroIff(|l.medias|, |l.payloads| * |l.encodings|);
    ProductIsZeroIff(|l.rates|, |l.medias| * (|l.payloads| * |l.encodings|));
  }

  lemma {:induction false} ProductIsZeroIff(a: nat, b: nat)
    ensures a * b == 0 <==> a == 0 || b == 0
  {
  }

  /** Value i of a field that holds text: a missing one stands for the name "null". */
  predicate IsText(t: Text, i: nat, value: string) {
    match t
    case NoText => i == 0 && value == "null"
    case OneText(text) => i == 0 && value == text
    case Texts(texts) => i < |texts| && value == texts[i]
    case OtherText => false
  }

  /** Value i of a field that holds numbers: of a range only the upper end is taken. */
  predicate IsNumber(n: Number, i: nat, value: int) {
    match n
    case OneNumber(k) => i == 0 && value == k
    case Numbers(ns) => i < |ns| && value == ns[i]
    case Range(_, high) => i == 0 && value == high
    case _ => false
  }

  /** Each codec of a structure takes one value of each field, those of its place. */
  lemma {:induction false} CodecTakesFields(s: Structure, i: nat) returns (c: Choice)
    requires i < |Combinations(ListsOf(s))|
    ensures var codec := Combinations(ListsOf(s))[i];
      && IsText(s.encodingName, c.e, codec.encoding) && IsNumber(s.payload, c.p, codec.payload)
      && IsText(s.media, c.m, codec.media) && IsNumber(s.clockRate, c.r, codec.clockRate)
    ensures c.Of(ListsOf(s)) && i == c.Index(ListsOf(s))
  {
    hide Combinations;
    c := EachPlaceIsOneChoice(ListsOf(s), i);
    CombinationAt(ListsOf(s), c);
  }

  /** And each combination of values is taken: there is one codec for it. */
  lemma {:induction false} FieldsMakeCodec(s: Structure, c: Choice, codec: Codec)
    requires IsText(s.encodingName, c.e, codec.encoding) && IsNumber(s.payload, c.p, codec.payload)
    requires IsText(s.media, c.m, codec.media) && IsNumber(s.clockRate, c.r, codec.clockRate)
    ensures c.Of(ListsOf(s)) && c.Index(ListsOf(s)) < |Combinations(ListsOf(s))|
    ensures Combinations(ListsOf(s))[c.Index(ListsOf(s))] == codec
  {
    hide Combinations;
    CombinationAt(ListsOf(s), c);
  }

  // ---- Names

  const NULL_NAME := "null"

  /** The first name that is not "null". */
  function FirstName(codecs: seq<Codec>): (r: string)
    ensures r == NULL_NAME <==> forall c :: c in codecs ==> c.encoding == NULL_NAME
  {
    if codecs == [] then NULL_NAME
    else if codecs[0].encoding != NULL_NAME then codecs[0].encoding
    else FirstName(codecs[1..])
  }

  function Named(codecs: seq<Codec>): seq<Codec> {
    seq(|codecs|, i requires 0 <= i < |codecs| =>
      if codecs[i].encoding == NULL_NAME then codecs[i].(encoding := FirstName(codecs)) else codecs[i])
  }

  /** Afterwards either all names are "null", then nothing has changed, or none is. */
  lemma {:induction false} AllNullOrNone(codecs: seq<Codec>)
    ensures (Named(codecs) == codecs && forall c :: c in codecs ==> c.encoding == NULL_NAME)
      || forall c :: c in Named(codecs) ==> c.encoding != NULL_NAME
    ensures Named(Named(codecs)) == Named(codecs)
  {
    if FirstName(codecs) == NULL_NAME {
      assert forall i :: 0 <= i < |codecs| ==> codecs[i] in codecs;
    } else {
      assert forall i :: 0 <= i < |codecs| ==> Named(codecs)[i].encoding != NULL_NAME;
    }
  }

  /** The name given to the codecs without one is the first name there is; all else stays. */
  lemma {:induction false} NamedAfterFirst(codecs: seq<Codec>, i: nat)
    requires i < |codecs| && codecs[i].encoding != "null" && forall j :: 0 <= j < i ==> codecs[j].encoding == "null"
    ensures |Named(codecs)| == |codecs|
    ensures forall k :: 0 <= k < |codecs| ==>
      var name := if codecs[k].encoding == "null" then codecs[i].encoding else codecs[k].encoding;
      Named(codecs)[k] == codecs[k].(encoding := name)
  {
    FirstNameAt(codecs, i);
  }

  lemma {:induction false} FirstNameAt(codecs: seq<Codec>, i: nat)
    requires i < |codecs| && codecs[i].encoding != "null" && forall j :: 0 <= j < i ==> codecs[j].encoding == "null"
    ensures FirstName(codecs) == codecs[i].encoding
    decreases i
  {
    if i > 0 {
      FirstNameAt(codecs[1..], i - 1);
    }
  }

  // ---- The objects

  class RTPCodec {
    var encodingName: string
    var payload: int
    var media: string
    var clockRate: int

    function Value(): Codec
      reads this
    {
      Codec(encodingName, payload, media, clockRate)
    }

    constructor ()
      ensures Value() == BLANK
    {
      encodingName, payload, media, clockRate := "", -1, "", -1;
    }

    constructor Copy(c: RTPCodec)
      ensures Value() == c.Value()
    {
      encodingName, payload, media, clockRate := c.encodingName, c.payload, c.media, c.clockRate;
    }

    method Assign(f: Field)
      modifies this
      ensures Value() == With(old(Value()), f)
    {
      match f
      case Encoding(name) => encodingName := name;
      case Payload(pt) => payload := pt;
      case Media(kind) => media := kind;
      case ClockRate(rate) => clockRate := rate;
    }
  }

  ghost predicate Distinct<T>(s: seq<T>) {
    forall i, j :: 0 <= i < j < |s| ==> s[i] != s[j]
  }

  ghost predicate Show(s: seq<RTPCodec>, values: seq<Codec>)
    reads s
  {
    |s| == |values| && forall i :: 0 <= i < |s| ==> s[i].Value() == values[i]
  }

  /** One of the four loops: a new object for each copy, none shared with another. */
  method ExpandObjects(res: seq<RTPCodec>, fields: seq<Field>, ghost values: seq<Codec>) returns (out: seq<RTPCodec>)
    requires Show(res, values)
    ensures Distinct(out) && fresh(out)
    ensures Show(out, Expand(values, fields))
  {
    hide Expand, AllWith;
    ExpandNone(values, fields);
    out := [];
    for v := 0 to |fields|
      invariant Distinct(out) && fresh(out)
      invariant Show(out, Expand(values, fields[..v]))
    {
      var copies := CopiesWith(res, fields[v], values);
      ExpandNext(values, fields, v);
      out := out + copies;
    }
    assert fields[..|fields|] == fields;
  }

  lemma {:induction false} ExpandNone(values: seq<Codec>, fields: seq<Field>)
    ensures Expand(values, fields[..0]) == []
  {
  }

  lemma {:induction false} ExpandNext(values: seq<Codec>, fields: seq<Field>, v: nat)
    requires v < |fields|
    ensures Expand(values, fields[..v + 1]) == Expand(values, fields[..v]) + AllWith(values, fields[v])
  {
    assert fields[..v + 1][..v] == fields[..v];
  }

  method CopiesWith(res: seq<RTPCodec>, f: Field, ghost values: seq<Codec>) returns (copies: seq<RTPCodec>)
    requires Show(res, values)
    ensures Distinct(copies) && fresh(copies)
    ensures Show(copies, AllWith(values, f))
  {
    copies := [];
    for i := 0 to |res|
      invariant Distinct(copies) && fresh(copies)
      invariant Show(copies, AllWith(values, f)[..i])
    {
      var codec := new RTPCodec.Copy(res[i]);
      codec.Assign(f);
      copies := copies + [codec];
    }
  }

  method InspectStruct(s: Structure) returns (res: seq<RTPCodec>)
    ensures Distinct(res) && fresh(res)
    ensures Show(res, Combinations(ListsOf(s)))
  {
    var l := ListsOf(s);
    var blank := new RTPCodec();
    res := ExpandObjects([blank], l.encodings, [BLANK]);
    res := ExpandObjects(res, l.payloads, Expand([BLANK], l.encodings));
    res := ExpandObjects(res, l.medias, FirstTwo(l));
    res := ExpandObjects(res, l.rates, FirstThree(l));
  }

  method ReplaceNullNames(codecs: seq<RTPCodec>, ghost values: seq<Codec>)
    requires Distinct(codecs) && Show(codecs, values)
    modifies codecs
    ensures Show(codecs, Named(values))
  {
    var i := 0;
    while i < |codecs| && codecs[i].encodingName == NULL_NAME
      invariant i <= |codecs|
      invariant FirstName(values) == FirstName(values[i..])
    {
      i := i + 1;
    }
    if i < |codecs| {
      assert codecs[i].encodingName == FirstName(values);
      NameAll(codecs, codecs[i].encodingName, values);
    } else {
      assert FirstName(values) == NULL_NAME;
    }
  }

  method NameAll(codecs: seq<RTPCodec>, encoding: string, ghost values: seq<Codec>)
    requires Distinct(codecs) && Show(codecs, values) && encoding == FirstName(values)
    modifies codecs
    ensures Show(codecs, Named(values))
  {
    hide FirstName;
    for k := 0 to |codecs|
      invariant forall j :: 0 <= j < k ==> codecs[j].Value() == Named(values)[j]
      invariant forall j :: k <= j < |codecs| ==> codecs[j].Value() == values[j]
    {
      assert codecs[k].Value() == values[k];
      if codecs[k].encodingName == NULL_NAME {
        codecs[k].encodingName := encoding;
      }
    }
  }
}
