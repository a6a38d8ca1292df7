/** The tenant entity. A company row is identified by its generated id; two
    company objects are equal exactly when their ids are, so a user's set of
    companies behaves as a set of ids. */
module CompanyModel {
  import opened Wrappers

  datatype Company = Company(
    id: Option<nat>,            // null until the row is first saved
    name: string,               // unique column
    primaryEmail: Option<string>,
    secondaryEmail: Option<string>,
    primaryContact: Option<string>,
    secondaryContact: Option<string>,
    country: Option<nat>,       // id of the referenced country row
    town: Option<string>,
    address: Option<string>,
    registration: Option<string>,
    taxId: Option<string>,
    status: bool)               // enabled flag

  /** A company built with the no-argument constructor and given a name:
      every other column null and the company enabled. */
  function NewCompany(name: string): (c: Company)
    ensures c.id.None? && c.name == name && c.status
    ensures c.country.None? && c.primaryEmail.None? && c.primaryContact.None?
  {
    Company(None, name, None, None, None, None, None, None, None, None, None, true)
  }

  /** `Company.equals`: identity of the id, whatever the other columns hold. */
  predicate SameCompany(a: Company, b: Company) { a.id == b.id }

  /** The largest value a Java `Long` id can take. */
  const MaxLong: nat := 0x7FFF_FFFF_FFFF_FFFF

  /** `Long.hashCode`: the low 32 bits of the value xor its high 32 bits. */
  function LongHash(v: nat): bv32
    requires v <= MaxLong
  {
    var b := v as bv64;
    ((b ^ (b >> 32)) & 0xFFFF_FFFF) as bv32
  }

  /** `Company.hashCode` = `Objects.hash(id)` = 31 + hash(id), with 32-bit wrap-around. */
  function HashCode(c: Company): bv32
    requires c.id.Some? ==> c.id.value <= MaxLong
  {
    31 + (match c.id case None => 0 case Some(v) => LongHash(v))
  }

  /** Equal companies hash alike, so hash-based sets of companies find them. */
  lemma HashAgreesWithEquals(a: Company, b: Company)
    requires a.id.Some? ==> a.id.value <= MaxLong
    requires b.id.Some? ==> b.id.value <= MaxLong
    requires SameCompany(a, b)
    ensures HashCode(a) == HashCode(b)
  {
  }

  /** The ids of a set of companies. */
  function Ids(cs: set<Company>): set<Option<nat>> { set c | c in cs :: c.id }

  /** `Set.contains` on companies, which asks `equals` of each member. */
  predicate Contains(cs: set<Company>, c: Company) { exists d :: d in cs && SameCompany(d, c) }

  /** Membership by `equals` is membership of the id: this is why the model
      keeps a user's companies as the set of their ids. */
  lemma {:induction false} ContainsById(cs: set<Company>, c: Company)
    ensures Contains(cs, c) <==> c.id in Ids(cs)
  {
    if c.id in Ids(cs) {
      var d :| d in cs && d.id == c.id;
      assert SameCompany(d, c);
    }
  }
}
