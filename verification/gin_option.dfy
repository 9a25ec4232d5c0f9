/**
 * The server-side options. Each Go option is a closure over `*config`; here it is
 * the data the closure captures, Apply runs its body, and Applies says which
 * settings it may leave behind.
 */
module GinOption {
  import opened Attribute
  import opened Recording
  import opened GinConfig

  datatype Option =
    | RecordInFlightOff
    | RecordDurationOff
    | RecordSizeOff
    | GroupedStatusOff
    | UseRecorder(recorder: OtelRecorder?)
    | AdditionalAttributes(attributes: map<string, string>)

  /**
   * `attrs` lists the map: one string attribute per entry, each entry once, in
   * no particular order (Go's map iteration order is unspecified).
   */
  predicate IsListing(attrs: seq<KeyValue>, m: map<string, string>)
  {
    && |attrs| == |m.Keys|
    && (forall k :: k in m ==> String(k, m[k]) in attrs)
    && (forall i :: 0 <= i < |attrs| ==> attrs[i].key in m && attrs[i] == String(attrs[i].key, m[attrs[i].key]))
    && DistinctKeys(attrs)
  }

  /** The settings option `o` may turn `s` into. */
  predicate Applies(o: Option, s: Settings, t: Settings)
  {
    match o
    case RecordInFlightOff => t == s.(recordInFlight := false)
    case RecordDurationOff => t == s.(recordDuration := false)
    case RecordSizeOff => t == s.(recordSize := false)
    case GroupedStatusOff => t == s.(groupedStatus := false)
    case UseRecorder(r) => t == s.(recorder := r)
    case AdditionalAttributes(m) => t == s.(attributes := t.attributes) && IsListing(t.attributes, m)
  }

  /** WithRecordInFlightDisabled; its argument is ignored. */
  function WithRecordInFlightDisabled(recordInFlight: bool): Option
  {
    RecordInFlightOff
  }

  /** WithRecordDurationDisabled; its argument is ignored. */
  function WithRecordDurationDisabled(recordDuration: bool): Option
  {
    RecordDurationOff
  }

  /** WithRecordSizeDisabled; its argument is ignored. */
  function WithRecordSizeDisabled(recordSize: bool): Option
  {
    RecordSizeOff
  }

  function WithGroupedStatusDisabled(): Option
  {
    GroupedStatusOff
  }

  function WithRecorder(recorder: OtelRecorder?): Option
  {
    UseRecorder(recorder)
  }

  function WithAdditionalAttributes(attributes: map<string, string>): Option
  {
    AdditionalAttributes(attributes)
  }

  /** The three "disabled" options turn their switch off whatever argument they are given, and touch nothing else. */
  lemma DisabledOptionsIgnoreArgument(b: bool, s: Settings, t: Settings)
    ensures Applies(WithRecordInFlightDisabled(b), s, t) <==> t == s.(recordInFlight := false)
    ensures Applies(WithRecordDurationDisabled(b), s, t) <==> t == s.(recordDuration := false)
    ensures Applies(WithRecordSizeDisabled(b), s, t) <==> t == s.(recordSize := false)
  {
  }

  /** WithGroupedStatusDisabled: exact status codes from then on, nothing else changes. */
  lemma GroupedStatusDisabledEffect(s: Settings, t: Settings)
    ensures Applies(WithGroupedStatusDisabled(), s, t) <==> t == s.(groupedStatus := false)
  {
  }

  /** WithRecorder: installs the recorder, nothing else changes. */
  lemma WithRecorderEffect(recorder: OtelRecorder?, s: Settings, t: Settings)
    ensures Applies(WithRecorder(recorder), s, t) <==> t == s.(recorder := recorder)
  {
  }

  /**
   * WithAdditionalAttributes: the extra attributes become a listing of the map,
   * one string attribute per entry; nothing else changes.
   */
  lemma AdditionalAttributesEffect(attributes: map<string, string>, s: Settings, t: Settings)
    ensures Applies(WithAdditionalAttributes(attributes), s, t)
        <==> t.(attributes := s.attributes) == s && IsListing(t.attributes, attributes)
  {
  }

  /** `attrs` lists the entries of `m` whose keys are in `visited`, each once. */
  predicate ListsEntries(attrs: seq<KeyValue>, m: map<string, string>, visited: set<string>)
  {
    && visited <= m.Keys
    && (forall k :: k in visited ==> String(k, m[k]) in attrs)
    && (forall i :: 0 <= i < |attrs| ==> attrs[i].key in visited && attrs[i] == String(attrs[i].key, m[attrs[i].key]))
    && DistinctKeys(attrs)
  }

  /** Appending the attribute of one more entry keeps the list a listing of the entries seen. */
  lemma ListsOneMore(attrs: seq<KeyValue>, m: map<string, string>, visited: set<string>, k: string)
    requires ListsEntries(attrs, m, visited) && k in m && k !in visited
    ensures ListsEntries(attrs + [String(k, m[k])], m, visited + {k})
  {
    var next := attrs + [String(k, m[k])];
    assert forall i :: 0 <= i < |attrs| ==> next[i] == attrs[i] && attrs[i].key != k;
  }

  /** The loop of WithAdditionalAttributes' closure: one string attribute per entry, in map iteration order. */
  method AttributesFromMap(attributes: map<string, string>) returns (attrs: seq<KeyValue>)
    ensures IsListing(attrs, attributes)
  {
    attrs := [];
    var pending := attributes.Keys;
    while pending != {}
      invariant pending <= attributes.Keys
      invariant ListsEntries(attrs, attributes, attributes.Keys - pending)
      invariant |attrs| + |pending| == |attributes.Keys|
      decreases pending
    {
      var k :| k in pending;
      assert |pending - {k}| == |pending| - 1;
      ListsOneMore(attrs, attributes, attributes.Keys - pending, k);
      assert attributes.Keys - (pending - {k}) == (attributes.Keys - pending) + {k};
      attrs := attrs + [String(k, attributes[k])];
      pending := pending - {k};
    }
    assert attributes.Keys - pending == attributes.Keys;
  }

  /** optionFunc.apply: runs the option's closure on the configuration. */
  method Apply(o: Option, cfg: Config)
    modifies cfg
    ensures Applies(o, old(cfg.Current()), cfg.Current())
  {
    match o
    case RecordInFlightOff => cfg.recordInFlight := false;
    case RecordDurationOff => cfg.recordDuration := false;
    case RecordSizeOff => cfg.recordSize := false;
    case GroupedStatusOff => cfg.groupedStatus := false;
    case UseRecorder(r) => cfg.recorder := r;
    case AdditionalAttributes(m) =>
      var attr := AttributesFromMap(m);
      cfg.attributes := attr;
  }

  /** With distinct keys, an attribute occurs in the list at most once. */
  lemma {:induction false} DistinctOccurrences(attrs: seq<KeyValue>, x: KeyValue)
    requires DistinctKeys(attrs)
    ensures multiset(attrs)[x] == if x in attrs then 1 else 0
    decreases |attrs|
  {
    if attrs != [] {
      var init := attrs[..|attrs| - 1];
      assert attrs == init + [attrs[|attrs| - 1]];
      DistinctOccurrences(init, x);
      if x == attrs[|attrs| - 1] {
        assert forall i :: 0 <= i < |init| ==> init[i].key != x.key;
      }
    }
  }

  /** Two listings of the same map hold the same attributes, each once: they differ only in order. */
  lemma ListingsPermute(xs: seq<KeyValue>, ys: seq<KeyValue>, m: map<string, string>)
    requires IsListing(xs, m) && IsListing(ys, m)
    ensures multiset(xs) == multiset(ys)
  {
    forall x
      ensures multiset(xs)[x] == multiset(ys)[x]
    {
      DistinctOccurrences(xs, x);
      DistinctOccurrences(ys, x);
      if x in xs {
        var i :| 0 <= i < |xs| && xs[i] == x;
        assert String(x.key, m[x.key]) in ys;
      }
      if x in ys {
        var i :| 0 <= i < |ys| && ys[i] == x;
        assert String(x.key, m[x.key]) in xs;
      }
    }
  }

  /**
   * Applying an option a second time changes nothing, except that a second
   * WithAdditionalAttributes may list the same attributes in another order.
   */
  lemma ApplyTwice(o: Option, s: Settings, t: Settings, u: Settings)
    requires Applies(o, s, t) && Applies(o, t, u)
    ensures u.(attributes := t.attributes) == t
    ensures multiset(u.attributes) == multiset(t.attributes)
    ensures !o.AdditionalAttributes? ==> u == t
  {
    if o.AdditionalAttributes? {
      ListingsPermute(u.attributes, t.attributes, o.attributes);
    }
  }
}
