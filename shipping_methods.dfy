/**
 * The 'wc_edd_shipping_methods' option: an ordered PHP array from a shipping
 * method key (a method type and a zone instance, as in 'flat_rate:1') to that
 * method's settings array. The newest calculator reads 'min_transit' and
 * 'max_transit' from it; the oldest reads 'min' and 'max'.
 */
module ShippingMethods {
  import opened Php

  datatype MethodEntry = MethodEntry(id: string, settings: map<string, Value>)

  /**
   * $option[$id]. Keys of a PHP array are unique, so the first entry carrying
   * the key is the entry for it.
   */
  function Lookup(entries: seq<MethodEntry>, id: string): (r: Option<map<string, Value>>)
    ensures r.None? <==> forall k :: 0 <= k < |entries| ==> entries[k].id != id
    ensures r.Some? ==> exists k :: 0 <= k < |entries| && entries[k].id == id && entries[k].settings == r.value
  {
    if entries == [] then None
    else if entries[0].id == id then Some(entries[0].settings)
    else
      var r := Lookup(entries[1..], id);
      assert forall k :: 1 <= k < |entries| ==> entries[k] == entries[1..][k - 1];
      r
  }
}
