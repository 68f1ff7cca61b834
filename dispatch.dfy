/**
 * Algorithm dispatch: `getSymmetricAlgorithm`, `getAsymmetricAlgorithm`,
 * `getHashAlgorithm` and `getMacAlgorithm` map an algorithm kind to the
 * OpenSSL-backed class that implements it, or to NULL.  The classes are
 * opaque here, so each product is a tag naming the class.  Each kind type
 * lists the kinds its switch names, plus one constructor standing for every
 * other value of the enumeration.
 *
 * The independent side of each mapping is the product's own description:
 * which kind it implements, and which build option compiles it in.  Each
 * dispatch function is proved to return only a product that implements the
 * requested kind and is compiled in, and NULL only when no such product
 * exists.
 */
module Dispatch {
  import opened Platform

  /** The build option under whose `#ifdef` a product class is compiled. */
  datatype Feature = Always | Ecc | GostSuite | EdDsa

  predicate Enabled(build: Build, f: Feature) {
    match f
    case Always => true
    case Ecc => build.ecc
    case GostSuite => build.gost
    case EdDsa => build.eddsa
  }

  // ---------------------------------------------------------------- symmetric

  datatype SymAlgo = AES | DES | DES3 | OtherSymAlgo
  datatype SymProduct = OSSLAES | OSSLDES

  /** OSSLDES implements both single and triple DES. */
  predicate SymImplements(p: SymProduct, a: SymAlgo) {
    match p
    case OSSLAES => a == AES
    case OSSLDES => a == DES || a == DES3
  }

  function SymmetricAlgorithm(algo: SymAlgo): (r: Option<SymProduct>)
    ensures r.Some? ==> SymImplements(r.value, algo)
    ensures r.None? ==> forall p :: !SymImplements(p, algo)
    ensures algo == OtherSymAlgo ==> r.None?
  {
    match algo
    case AES => Some(OSSLAES)
    case DES => Some(OSSLDES)
    case DES3 => Some(OSSLDES)
    case OtherSymAlgo => None
  }

  /** Every kind a symmetric product implements is dispatched to it. */
  lemma SymmetricReachesEveryProduct(p: SymProduct, a: SymAlgo)
    requires SymImplements(p, a)
    ensures SymmetricAlgorithm(a) == Some(p)
  {
  }

  // --------------------------------------------------------------- asymmetric

  datatype AsymAlgo = RSA | DSA | DH | ECDH | ECDSA | GOST | EDDSA | OtherAsymAlgo
  datatype AsymProduct = OSSLRSA | OSSLDSA | OSSLDH | OSSLECDH | OSSLECDSA | OSSLGOST | OSSLEDDSA

  function AsymKind(p: AsymProduct): AsymAlgo {
    match p
    case OSSLRSA => RSA
    case OSSLDSA => DSA
    case OSSLDH => DH
    case OSSLECDH => ECDH
    case OSSLECDSA => ECDSA
    case OSSLGOST => GOST
    case OSSLEDDSA => EDDSA
  }

  function AsymFeature(p: AsymProduct): Feature {
    match p
    case OSSLECDH => Ecc
    case OSSLECDSA => Ecc
    case OSSLGOST => GostSuite
    case OSSLEDDSA => EdDsa
    case _ => Always
  }

  function AsymmetricAlgorithm(build: Build, algo: AsymAlgo): (r: Option<AsymProduct>)
    ensures r.Some? ==> AsymKind(r.value) == algo && Enabled(build, AsymFeature(r.value))
    ensures r.None? ==> forall p :: AsymKind(p) == algo ==> !Enabled(build, AsymFeature(p))
    ensures algo == OtherAsymAlgo ==> r.None?
  {
    match algo
    case RSA => Some(OSSLRSA)
    case DSA => Some(OSSLDSA)
    case DH => Some(OSSLDH)
    case ECDH => if build.ecc then Some(OSSLECDH) else None
    case ECDSA => if build.ecc then Some(OSSLECDSA) else None
    case GOST => if build.gost then Some(OSSLGOST) else None
    case EDDSA => if build.eddsa then Some(OSSLEDDSA) else None
    case OtherAsymAlgo => None
  }

  /** Every compiled-in asymmetric product is reachable through its kind. */
  lemma AsymmetricReachesEveryProduct(build: Build, p: AsymProduct)
    requires Enabled(build, AsymFeature(p))
    ensures AsymmetricAlgorithm(build, AsymKind(p)) == Some(p)
  {
  }

  // --------------------------------------------------------------------- hash

  /** `GOST_R3411` is the source's `HashAlgo::GOST`, renamed apart from `AsymAlgo`'s `GOST`. */
  datatype HashAlgo = MD5 | SHA1 | SHA224 | SHA256 | SHA384 | SHA512 | GOST_R3411 | OtherHashAlgo
  datatype HashProduct =
    OSSLMD5 | OSSLSHA1 | OSSLSHA224 | OSSLSHA256 | OSSLSHA384 | OSSLSHA512 | OSSLGOSTR3411

  function HashKind(p: HashProduct): HashAlgo {
    match p
    case OSSLMD5 => MD5
    case OSSLSHA1 => SHA1
    case OSSLSHA224 => SHA224
    case OSSLSHA256 => SHA256
    case OSSLSHA384 => SHA384
    case OSSLSHA512 => SHA512
    case OSSLGOSTR3411 => GOST_R3411
  }

  function HashFeature(p: HashProduct): Feature {
    if p == OSSLGOSTR3411 then GostSuite else Always
  }

  function HashAlgorithm(build: Build, algo: HashAlgo): (r: Option<HashProduct>)
    ensures r.Some? ==> HashKind(r.value) == algo && Enabled(build, HashFeature(r.value))
    ensures r.None? ==> forall p :: HashKind(p) == algo ==> !Enabled(build, HashFeature(p))
    ensures algo == OtherHashAlgo ==> r.None?
  {
    match algo
    case MD5 => Some(OSSLMD5)
    case SHA1 => Some(OSSLSHA1)
    case SHA224 => Some(OSSLSHA224)
    case SHA256 => Some(OSSLSHA256)
    case SHA384 => Some(OSSLSHA384)
    case SHA512 => Some(OSSLSHA512)
    case GOST_R3411 => if build.gost then Some(OSSLGOSTR3411) else None
    case OtherHashAlgo => None
  }

  lemma HashReachesEveryProduct(build: Build, p: HashProduct)
    requires Enabled(build, HashFeature(p))
    ensures HashAlgorithm(build, HashKind(p)) == Some(p)
  {
  }

  // ---------------------------------------------------------------------- MAC

  datatype MacAlgo =
    | HMAC_MD5 | HMAC_SHA1 | HMAC_SHA224 | HMAC_SHA256 | HMAC_SHA384 | HMAC_SHA512
    | HMAC_GOST | CMAC_DES | CMAC_AES | OtherMacAlgo
  datatype MacProduct =
    | OSSLHMACMD5 | OSSLHMACSHA1 | OSSLHMACSHA224 | OSSLHMACSHA256 | OSSLHMACSHA384
    | OSSLHMACSHA512 | OSSLHMACGOSTR3411 | OSSLCMACDES | OSSLCMACAES

  function MacKind(p: MacProduct): MacAlgo {
    match p
    case OSSLHMACMD5 => HMAC_MD5
    case OSSLHMACSHA1 => HMAC_SHA1
    case OSSLHMACSHA224 => HMAC_SHA224
    case OSSLHMACSHA256 => HMAC_SHA256
    case OSSLHMACSHA384 => HMAC_SHA384
    case OSSLHMACSHA512 => HMAC_SHA512
    case OSSLHMACGOSTR3411 => HMAC_GOST
    case OSSLCMACDES => CMAC_DES
    case OSSLCMACAES => CMAC_AES
  }

  function MacFeature(p: MacProduct): Feature {
    if p == OSSLHMACGOSTR3411 then GostSuite else Always
  }

  function MacAlgorithm(build: Build, algo: MacAlgo): (r: Option<MacProduct>)
    ensures r.Some? ==> MacKind(r.value) == algo && Enabled(build, MacFeature(r.value))
    ensures r.None? ==> forall p :: MacKind(p) == algo ==> !Enabled(build, MacFeature(p))
    ensures algo == OtherMacAlgo ==> r.None?
  {
    match algo
    case HMAC_MD5 => Some(OSSLHMACMD5)
    case HMAC_SHA1 => Some(OSSLHMACSHA1)
    case HMAC_SHA224 => Some(OSSLHMACSHA224)
    case HMAC_SHA256 => Some(OSSLHMACSHA256)
    case HMAC_SHA384 => Some(OSSLHMACSHA384)
    case HMAC_SHA512 => Some(OSSLHMACSHA512)
    case HMAC_GOST => if build.gost then Some(OSSLHMACGOSTR3411) else None
    case CMAC_DES => Some(OSSLCMACDES)
    case CMAC_AES => Some(OSSLCMACAES)
    case OtherMacAlgo => None
  }

  lemma MacReachesEveryProduct(build: Build, p: MacProduct)
    requires Enabled(build, MacFeature(p))
    ensures MacAlgorithm(build, MacKind(p)) == Some(p)
  {
  }

  // ---------------------------------------------------------------------- RNG

  datatype RngImpl = Default | OtherRngImpl
}
