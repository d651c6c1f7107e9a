/**
 * WC_EDD_Product_Meta::get_product_lead_time (admin/class-product-meta.php):
 * each bound comes from the product's own meta when that is not '', and
 * otherwise from the matching store default, each field on its own.
 */
module ProductMeta {
  import opened Php

  /** The product's '_wc_edd_lead_time_min' and '_wc_edd_lead_time_max' meta. */
  datatype LeadTimeMeta = LeadTimeMeta(min: MetaValue, max: MetaValue)

  /** The ['min' => int, 'max' => int] array returned; nothing orders the two. */
  datatype LeadTime = LeadTime(min: int, max: int)

  /** A default read from 'wc_edd_general_settings': (int) of it when set, else 0. */
  function DefaultBound(v: Value): (n: int)
    ensures IsSet(v) ==> n == IntVal(v)
    ensures !IsSet(v) ==> n == 0
  {
    if IsSet(v) then IntVal(v) else 0
  }

  /** One bound: the meta cast to int when it is not '', else the default. */
  function Bound(meta: MetaValue, default: Value): (n: int)
    ensures meta != Blank ==> n == IntVal(meta)
    ensures meta == Blank ==> n == DefaultBound(default)
  {
    if meta != Blank then IntVal(meta) else DefaultBound(default)
  }

  /**
   * get_product_lead_time($product), given the product's meta and the
   * 'default_lead_time_min' / 'default_lead_time_max' entries of the general
   * settings.
   */
  function GetProductLeadTime(product: LeadTimeMeta, defaultMin: Value, defaultMax: Value): (r: LeadTime)
    ensures product.min != Blank ==> r.min == IntVal(product.min)
    ensures product.max != Blank ==> r.max == IntVal(product.max)
    ensures product.min == Blank ==> r.min == (if IsSet(defaultMin) then IntVal(defaultMin) else 0)
    ensures product.max == Blank ==> r.max == (if IsSet(defaultMax) then IntVal(defaultMax) else 0)
  {
    LeadTime(Bound(product.min, defaultMin), Bound(product.max, defaultMax))
  }

  /**
   * Each field is resolved on its own: the minimum does not depend on the
   * product's maximum meta or on the default maximum, and vice versa.
   */
  lemma FieldsIndependent(product1: LeadTimeMeta, product2: LeadTimeMeta, defMin1: Value, defMax1: Value,
                          defMin2: Value, defMax2: Value)
    ensures product1.min == product2.min && defMin1 == defMin2 ==>
      GetProductLeadTime(product1, defMin1, defMax1).min == GetProductLeadTime(product2, defMin2, defMax2).min
    ensures product1.max == product2.max && defMax1 == defMax2 ==>
      GetProductLeadTime(product1, defMin1, defMax1).max == GetProductLeadTime(product2, defMin2, defMax2).max
  {
  }

  /** A product value, once set, wins over any default, including a larger one. */
  lemma ProductValueWins(product: LeadTimeMeta, defaultMin: Value, defaultMax: Value)
    requires product.min.Numeric? && product.max.Numeric?
    ensures GetProductLeadTime(product, defaultMin, defaultMax) == LeadTime(product.min.n, product.max.n)
  {
  }

  /** No reordering: a product minimum of 5 and maximum of 2 is returned as it is. */
  lemma NoReordering(defaultMin: Value, defaultMax: Value)
    ensures GetProductLeadTime(LeadTimeMeta(Numeric(5), Numeric(2)), defaultMin, defaultMax) == LeadTime(5, 2)
  {
  }

  /** Neither meta nor defaults set: both bounds are 0. */
  lemma NothingSetIsZero()
    ensures GetProductLeadTime(LeadTimeMeta(Blank, Blank), Absent, Absent) == LeadTime(0, 0)
  {
  }
}
