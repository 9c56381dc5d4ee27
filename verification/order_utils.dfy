/**
 * The comparator of the gadget-keyed maps: gadget references are ordered by
 * their gadget type alone, so every map built with it treats two gadgets of
 * the same type as one key.
 */
module OrderUtils {
  import opened SpyTypes

  /** `a` is ordered before `b` exactly when its gadget type is smaller. */
  predicate CmpGadgetPtr(a: Gadget, b: Gadget)
  {
    a.gadgetType < b.gadgetType
  }

  /** Neither gadget is ordered before the other: they are the same map key. */
  predicate Equivalent(a: Gadget, b: Gadget)
  {
    !CmpGadgetPtr(a, b) && !CmpGadgetPtr(b, a)
  }

  /** The comparator meets the strict-weak-order requirement of an ordered map. */
  lemma CmpGadgetPtrIsStrictWeakOrder(a: Gadget, b: Gadget, c: Gadget)
    ensures !CmpGadgetPtr(a, a)
    ensures CmpGadgetPtr(a, b) ==> !CmpGadgetPtr(b, a)
    ensures CmpGadgetPtr(a, b) && CmpGadgetPtr(b, c) ==> CmpGadgetPtr(a, c)
    ensures Equivalent(a, b) && Equivalent(b, c) ==> Equivalent(a, c)
  {
  }

  /** Key identity under the comparator is identity of the gadget type. */
  lemma EquivalentIffSameType(a: Gadget, b: Gadget)
    ensures Equivalent(a, b) <==> a.gadgetType == b.gadgetType
  {
  }

  /**
   * An ordered map keeps its keys strictly increasing under the comparator;
   * such a key sequence never holds two gadgets of the same type.
   */
  lemma {:induction false} OrderedKeysHaveDistinctTypes(keys: seq<Gadget>)
    requires forall i :: 0 <= i < |keys| - 1 ==> CmpGadgetPtr(keys[i], keys[i + 1])
    ensures forall i, j :: 0 <= i < j < |keys| ==> CmpGadgetPtr(keys[i], keys[j])
    ensures forall i, j :: 0 <= i < j < |keys| ==> keys[i].gadgetType != keys[j].gadgetType
  {
    if |keys| > 1 {
      var rest := keys[1..];
      OrderedKeysHaveDistinctTypes(rest);
      forall i, j | 0 <= i < j < |keys|
        ensures CmpGadgetPtr(keys[i], keys[j])
      {
        if i > 0 {
          assert keys[i] == rest[i - 1] && keys[j] == rest[j - 1];
        } else if j > 1 {
          assert keys[1] == rest[0] && keys[j] == rest[j - 1];
        }
      }
    }
  }
}
