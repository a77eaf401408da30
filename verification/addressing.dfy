/**
 * Address resolution: which of the driver's five stored bus addresses a
 * transaction goes to.
 */
module Addressing {
  import opened Registers

  /** The logical target of a write; `Normal` is the device's own address. */
  datatype AddressType = Normal | AllCall | SubCall1 | SubCall2 | SubCall3

  /** The enumerator's underlying value, in declaration order. */
  function Code(t: AddressType): (c: int)
    ensures 0 <= c <= 4
  {
    match t
    case Normal => 0
    case AllCall => 1
    case SubCall1 => 2
    case SubCall2 => 3
    case SubCall3 => 4
  }

  /** Distinct enumerators have distinct underlying values. */
  lemma CodeInjective(t1: AddressType, t2: AddressType)
    ensures Code(t1) == Code(t2) ==> t1 == t2
  {
  }

  /** The five addresses a driver instance stores. */
  datatype Addresses = Addresses(primary: uint8, allCall: uint8, sub1: uint8, sub2: uint8, sub3: uint8)

  const PCA9685_I2C_ADDR: uint8 := 0x40
  const PCA9685_I2C_ALL_CALL: uint8 := 0x70
  const PCA9685_SUB_CALL_1: uint8 := 0x71
  const PCA9685_SUB_CALL_2: uint8 := 0x72
  const PCA9685_SUB_CALL_3: uint8 := 0x73

  /** The addresses of a driver constructed for device `primary`: the
      broadcast addresses keep their declared initial values. */
  function DefaultAddresses(primary: uint8 := PCA9685_I2C_ADDR): (cfg: Addresses)
    ensures cfg.primary == primary
    ensures cfg.allCall == 0x70 && cfg.sub1 == 0x71 && cfg.sub2 == 0x72 && cfg.sub3 == 0x73
  {
    Addresses(primary, PCA9685_I2C_ALL_CALL, PCA9685_SUB_CALL_1, PCA9685_SUB_CALL_2, PCA9685_SUB_CALL_3)
  }

  /** The address getAddress picks for an address-type variable holding the
      integer `code`: 1..4 select the all-call and sub-call addresses, and
      `Normal` as well as any value outside the enumeration falls through
      to the primary address. */
  function ResolveCode(cfg: Addresses, code: int): (a: uint8)
    ensures code == 1 ==> a == cfg.allCall
    ensures code == 2 ==> a == cfg.sub1
    ensures code == 3 ==> a == cfg.sub2
    ensures code == 4 ==> a == cfg.sub3
    ensures !(1 <= code <= 4) ==> a == cfg.primary
  {
    if code == 1 then cfg.allCall
    else if code == 2 then cfg.sub1
    else if code == 3 then cfg.sub2
    else if code == 4 then cfg.sub3
    else cfg.primary
  }

  /** The bus address every write of an operation targeted at `t` goes to. */
  function Resolve(cfg: Addresses, t: AddressType): (a: uint8)
    ensures a in {cfg.primary, cfg.allCall, cfg.sub1, cfg.sub2, cfg.sub3}
    ensures t == Normal ==> a == cfg.primary
    ensures t == AllCall ==> a == cfg.allCall
    ensures t == SubCall1 ==> a == cfg.sub1
    ensures t == SubCall2 ==> a == cfg.sub2
    ensures t == SubCall3 ==> a == cfg.sub3
  {
    ResolveCode(cfg, Code(t))
  }

  /** The five stored addresses are pairwise distinct. */
  predicate DistinctAddresses(cfg: Addresses)
  {
    && cfg.primary != cfg.allCall && cfg.primary != cfg.sub1
    && cfg.primary != cfg.sub2 && cfg.primary != cfg.sub3
    && cfg.allCall != cfg.sub1 && cfg.allCall != cfg.sub2 && cfg.allCall != cfg.sub3
    && cfg.sub1 != cfg.sub2 && cfg.sub1 != cfg.sub3 && cfg.sub2 != cfg.sub3
  }

  /** With the declared defaults the five addresses are pairwise distinct,
      as long as the device's own address is not one of 0x70..0x73. */
  lemma DefaultAddressesDistinct(primary: uint8)
    requires !(0x70 <= primary <= 0x73)
    ensures DistinctAddresses(DefaultAddresses(primary))
    ensures DefaultAddresses().primary == 0x40
    ensures DistinctAddresses(DefaultAddresses())
  {
  }

  /** When the stored addresses are distinct, distinct targets reach
      distinct devices, and only `Normal` reaches the primary address. */
  lemma ResolveInjective(cfg: Addresses, t1: AddressType, t2: AddressType)
    requires DistinctAddresses(cfg)
    ensures Resolve(cfg, t1) == Resolve(cfg, t2) <==> t1 == t2
    ensures Resolve(cfg, t1) == cfg.primary <==> t1 == Normal
  {
  }
}
