/**
 * The parameter container of a tracking request: a map from parameter keys to string
 * values in which a later write overwrites an earlier one on the same key.
 */
module TrackingParameter {

  /** The well-known keys the tracker core touches, plus numbered free-form slots. */
  datatype Parameter =
    | ActivityName
    | Timestamp
    | ActionName
    | ScreenResolution
    | ScreenDepth
    | UserAgent
    | Timezone
    | DevLang
    | SamplingRate
    | EverId
    | ForceNewSession
    | AppFirstStart
    | Slot(category: string, index: nat)

  type Params = map<Parameter, string>

  /** `add(other)`: every key of `other` takes `other`'s value, the other keys of `p` keep theirs. */
  function Add(p: Params, other: Params): (r: Params)
    ensures r.Keys == p.Keys + other.Keys
    ensures forall k :: k in other ==> r[k] == other[k]
    ensures forall k :: k in p && k !in other ==> r[k] == p[k]
  {
    p + other
  }

  /** The value `v` stands for under the substitution table `m`. */
  function Mapped(v: string, m: map<string, string>): string
  {
    if v in m then m[v] else v
  }

  /**
   * `applyMapping(m)`: every value that is a key of `m` is replaced by `m`'s value for it;
   * the keys of the container do not change.
   */
  function ApplyMapping(p: Params, m: map<string, string>): (r: Params)
    ensures r.Keys == p.Keys
    ensures forall k :: k in p && p[k] in m ==> r[k] == m[p[k]]
    ensures forall k :: k in p && p[k] !in m ==> r[k] == p[k]
  {
    map k | k in p :: Mapped(p[k], m)
  }

  /** The container obtained by adding the layers one after another to an empty one. */
  function Overlay(layers: seq<Params>): Params
  {
    if layers == [] then map[] else Add(Overlay(layers[..|layers| - 1]), layers[|layers| - 1])
  }

  /** Adding one more layer to an overlay. */
  lemma OverlaySnoc(layers: seq<Params>, last: Params)
    ensures Overlay(layers + [last]) == Add(Overlay(layers), last)
  {
    assert (layers + [last])[..|layers|] == layers;
  }

  /** Adding the layer at index `n` to the overlay of the layers before it. */
  lemma OverlayPrefix(layers: seq<Params>, n: nat)
    requires n < |layers|
    ensures Overlay(layers[..n + 1]) == Add(Overlay(layers[..n]), layers[n])
  {
    assert layers[..n + 1][..n] == layers[..n];
  }

  /** An overlay of eight layers. */
  lemma OverlayOfEight(l: seq<Params>)
    requires |l| == 8
    ensures Overlay(l) == Add(Add(Add(Add(Add(Add(Add(l[0], l[1]), l[2]), l[3]), l[4]), l[5]), l[6]), l[7])
  {
    OverlayPrefix(l, 0);
    assert Add(map[], l[0]) == l[0];
    var o1 := Overlay(l[..1]);
    assert o1 == l[0];
    OverlayPrefix(l, 1);
    var o2 := Overlay(l[..2]);
    assert o2 == Add(o1, l[1]);
    OverlayPrefix(l, 2);
    var o3 := Overlay(l[..3]);
    assert o3 == Add(o2, l[2]);
    OverlayPrefix(l, 3);
    var o4 := Overlay(l[..4]);
    assert o4 == Add(o3, l[3]);
    OverlayPrefix(l, 4);
    var o5 := Overlay(l[..5]);
    assert o5 == Add(o4, l[4]);
    OverlayPrefix(l, 5);
    var o6 := Overlay(l[..6]);
    assert o6 == Add(o5, l[5]);
    OverlayPrefix(l, 6);
    var o7 := Overlay(l[..7]);
    assert o7 == Add(o6, l[6]);
    OverlayPrefix(l, 7);
    assert l[..8] == l;
    assert Overlay(l) == Add(o7, l[7]);
  }

  /** An overlay of three layers. */
  lemma OverlayOfThree(a: Params, b: Params, c: Params)
    ensures Overlay([a, b, c]) == Add(Add(a, b), c)
  {
    OverlaySnoc([], a);
    OverlaySnoc([a], b);
    OverlaySnoc([a, b], c);
    assert [] + [a] == [a];
    assert [a] + [b] == [a, b];
    assert [a, b] + [c] == [a, b, c];
    assert Add(map[], a) == a;
  }

  /** A key is in the overlay exactly when some layer has it. */
  lemma {:induction false} OverlayKeys(layers: seq<Params>, k: Parameter)
    ensures k in Overlay(layers) <==> exists i :: 0 <= i < |layers| && k in layers[i]
  {
    if layers != [] {
      var front := layers[..|layers| - 1];
      OverlayKeys(front, k);
      if k in Overlay(layers) && k !in layers[|layers| - 1] {
        var i :| 0 <= i < |front| && k in front[i];
        assert layers[i] == front[i];
      }
      if exists i :: 0 <= i < |layers| && k in layers[i] {
        var i :| 0 <= i < |layers| && k in layers[i];
        if i < |front| {
          assert front[i] == layers[i];
        }
      }
    }
  }

  /** Last writer wins: the value of a key is the one of the last layer that has the key. */
  lemma {:induction false} OverlayLastWriterWins(layers: seq<Params>, i: nat, k: Parameter)
    requires i < |layers| && k in layers[i]
    requires forall j :: i < j < |layers| ==> k !in layers[j]
    ensures k in Overlay(layers) && Overlay(layers)[k] == layers[i][k]
  {
    var front := layers[..|layers| - 1];
    if i < |layers| - 1 {
      assert front[i] == layers[i];
      forall j | i < j < |front| ensures k !in front[j] {
        assert front[j] == layers[j];
      }
      OverlayLastWriterWins(front, i, k);
    }
  }
}
