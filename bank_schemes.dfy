/**
 * The constant table of agricultural loan offers, keyed by a short bank code
 * in the order the object literal lists them. Each bank's offers are a
 * constant of their own, so a fact about one bank is stated about that
 * bank's constant alone.
 */
module BankSchemes {
  import opened Wrappers
  import opened Tables

  /**
   * One loan scheme. The interest rate is in tenths of a percent (8.5% is 85);
   * `applicationDate` and `status` are absent in the table and set when a
   * user applies.
   */
  datatype LoanScheme = LoanScheme(
    id: string,
    bankName: string,
    schemeName: string,
    interestRateTenths: int,
    maxAmount: int,
    tenure: int,
    description: string,
    applicationDate: Option<string>,
    status: Option<string>)

  /** An object from bank codes to scheme lists, as its properties in order. */
  type Table = seq<(string, seq<LoanScheme>)>

  /** A table row, which carries no application data. */
  function Offer(id: string, bankName: string, schemeName: string, interestRateTenths: int,
                 maxAmount: int, tenure: int, description: string): (s: LoanScheme)
    ensures s.applicationDate == None && s.status == None
    ensures s.id == id && s.bankName == bankName && s.tenure == tenure && s.maxAmount == maxAmount
  {
    LoanScheme(id, bankName, schemeName, interestRateTenths, maxAmount, tenure, description, None, None)
  }

  /** The schemes listed under "SBI". */
  const SbiOffers: seq<LoanScheme> := [
    Offer("sbi1", "State Bank of India", "Kisan Credit Card", 70, 1000000, 60,
      "Special credit facility for farmers with flexible repayment options"),
    Offer("sbi2", "State Bank of India", "Agri Gold Loan", 85, 500000, 36,
      "Quick loan against agricultural gold with minimal documentation")
  ]

  /** The schemes listed under "HDFC". */
  const HdfcOffers: seq<LoanScheme> := [
    Offer("hdfc1", "HDFC Bank", "Agri Equipment Finance", 80, 750000, 48,
      "Finance for purchasing agricultural equipment and machinery"),
    Offer("hdfc2", "HDFC Bank", "Kisan Gold Card", 75, 1200000, 60,
      "Comprehensive credit solution for agricultural needs")
  ]

  /** The schemes listed under "ICICI". */
  const IciciOffers: seq<LoanScheme> := [
    Offer("icici1", "ICICI Bank", "Kisan Flexi Cash", 78, 800000, 48,
      "Flexible credit line for agricultural operations"),
    Offer("icici2", "ICICI Bank", "Tractor Loan", 82, 1500000, 72,
      "Special financing for tractor purchase")
  ]

  /** The schemes listed under "PNB". */
  const PnbOffers: seq<LoanScheme> := [
    Offer("pnb1", "Punjab National Bank", "Krishi Udyami Scheme", 74, 900000, 60,
      "Comprehensive loan for agricultural entrepreneurs"),
    Offer("pnb2", "Punjab National Bank", "PNB Utthan Scheme", 76, 600000, 48,
      "Special scheme for small and marginal farmers")
  ]

  /** The schemes listed under "BOB". */
  const BobOffers: seq<LoanScheme> := [
    Offer("bob1", "Bank of Baroda", "Baroda Kisan Credit Card", 76, 850000, 48,
      "Comprehensive credit card facility for farmers"),
    Offer("bob2", "Bank of Baroda", "Baroda Agri Gold Loan", 78, 700000, 36,
      "Quick loan against agricultural gold")
  ]

  /** The schemes listed under "Union". */
  const UnionOffers: seq<LoanScheme> := [
    Offer("union1", "Union Bank of India", "Union Green Card", 79, 700000, 36,
      "Green initiative financing for sustainable farming"),
    Offer("union2", "Union Bank of India", "Kisan Tatkal Scheme", 81, 500000, 24,
      "Quick approval scheme for urgent farming needs")
  ]

  /** The schemes listed under "Canara". */
  const CanaraOffers: seq<LoanScheme> := [
    Offer("canara1", "Canara Bank", "Crop Loan Plus", 73, 600000, 24,
      "Short-term crop loan with additional benefits"),
    Offer("canara2", "Canara Bank", "Agri Machinery Loan", 78, 1000000, 60,
      "Financing for modern farming equipment")
  ]

  /** The schemes listed under "Indian". */
  const IndianOffers: seq<LoanScheme> := [
    Offer("indian1", "Indian Bank", "Kisan Tatkal", 77, 550000, 36,
      "Quick approval farm loan scheme"),
    Offer("indian2", "Indian Bank", "IB Kisan Plus", 80, 800000, 48,
      "Enhanced loan scheme for progressive farmers")
  ]

  /** The schemes listed under "KVB". */
  const KvbOffers: seq<LoanScheme> := [
    Offer("kvb1", "Karur Vysya Bank", "KVB Kisan Suvidha", 80, 500000, 36,
      "Convenient loan scheme for small farmers"),
    Offer("kvb2", "Karur Vysya Bank", "Agri Equipment Plus", 82, 750000, 48,
      "Specialized loan for modern farming equipment")
  ]

  /** The schemes listed under "Federal". */
  const FederalOffers: seq<LoanScheme> := [
    Offer("fed1", "Federal Bank", "Agri Federal Plus", 82, 600000, 48,
      "Comprehensive agricultural financing package"),
    Offer("fed2", "Federal Bank", "Kisan Suvidha Gold", 79, 900000, 60,
      "Premium loan scheme for established farmers")
  ]

  /** The schemes listed under "Axis". */
  const AxisOffers: seq<LoanScheme> := [
    Offer("axis1", "Axis Bank", "Farm Power", 81, 1000000, 54,
      "Financing for farm mechanization"),
    Offer("axis2", "Axis Bank", "Axis Kisan Card", 78, 800000, 48,
      "Flexible credit card for agricultural expenses")
  ]

  /** The object literal's properties, in source order. */
  const Entries: Table := [
    ("SBI", SbiOffers),
    ("HDFC", HdfcOffers),
    ("ICICI", IciciOffers),
    ("PNB", PnbOffers),
    ("BOB", BobOffers),
    ("Union", UnionOffers),
    ("Canara", CanaraOffers),
    ("Indian", IndianOffers),
    ("KVB", KvbOffers),
    ("Federal", FederalOffers),
    ("Axis", AxisOffers)
  ]

  /** The bank codes of the table, in source order. */
  const BankCodes: seq<string> :=
    ["SBI", "HDFC", "ICICI", "PNB", "BOB", "Union", "Canara", "Indian", "KVB", "Federal", "Axis"]

  /** The eleven bank codes are pairwise distinct. */
  lemma BankCodesDistinct()
    ensures forall i, j :: 0 <= i < j < |BankCodes| ==> BankCodes[i] != BankCodes[j]
  {
  }

  /** The table's bank codes are exactly the eleven codes, in order. */
  lemma TableKeys()
    ensures Keys(Entries) == BankCodes
    ensures DistinctKeys(Entries)
  {
    EntryCodes();
    BankCodesDistinct();
  }

  /** Property `i` of the table is named by the `i`-th bank code. */
  lemma EntryCodes()
    ensures |Entries| == |BankCodes|
    ensures forall i :: 0 <= i < |Entries| ==> Entries[i].0 == BankCodes[i]
  {
  }

  /** `bankSchemes[key]`: the schemes of a bank code, or nothing for a code the table lacks. */
  function Lookup(key: string): (r: Option<seq<LoanScheme>>)
    ensures r.Some? <==> key in BankCodes
    ensures r.Some? ==> exists i :: 0 <= i < |Entries| && Entries[i] == (key, r.value)
  {
    TableKeys();
    Find(Entries, key)
  }

  /** A row as the table lists it: no application data, a tenure of 24 to 72 months, at most 15 lakh rupees, 7% to 8.5% interest. */
  predicate Listed(s: LoanScheme) {
    && s.applicationDate.None? && s.status.None?
    && 24 <= s.tenure <= 72
    && 500000 <= s.maxAmount <= 1500000
    && 70 <= s.interestRateTenths <= 85
  }

  /** A bank's list as the table has it: two listed rows carrying the same bank name. */
  predicate ListedBank(schemes: seq<LoanScheme>) {
    && |schemes| == 2
    && forall j :: 0 <= j < |schemes| ==> Listed(schemes[j]) && schemes[j].bankName == schemes[0].bankName
  }

  /** The first six banks' offers are two listed rows of one bank each. */
  lemma FirstBanksListed()
    ensures ListedBank(SbiOffers) && ListedBank(HdfcOffers) && ListedBank(IciciOffers)
    ensures ListedBank(PnbOffers) && ListedBank(BobOffers) && ListedBank(UnionOffers)
  {
  }

  /** The last five banks' offers are two listed rows of one bank each. */
  lemma LastBanksListed()
    ensures ListedBank(CanaraOffers) && ListedBank(IndianOffers) && ListedBank(KvbOffers)
    ensures ListedBank(FederalOffers) && ListedBank(AxisOffers)
  {
  }

  /** Each bank's offers are two listed rows of that one bank. */
  lemma OffersListed()
    ensures ListedBank(SbiOffers) && ListedBank(HdfcOffers) && ListedBank(IciciOffers)
    ensures ListedBank(PnbOffers) && ListedBank(BobOffers) && ListedBank(UnionOffers)
    ensures ListedBank(CanaraOffers) && ListedBank(IndianOffers) && ListedBank(KvbOffers)
    ensures ListedBank(FederalOffers) && ListedBank(AxisOffers)
  {
    FirstBanksListed();
    LastBanksListed();
  }

  /**
   * Every bank of the table lists two schemes of one bank name, so the select
   * label read from element 0 exists and names every scheme listed under it.
   */
  lemma EveryBankListed()
    ensures forall i :: 0 <= i < |Entries| ==> ListedBank(Entries[i].1)
  {
    OffersListed();
  }

  /** The scheme ids of the table, bank by bank. */
  const SchemeIds: seq<string> := [
    "sbi1", "sbi2", "hdfc1", "hdfc2", "icici1", "icici2", "pnb1", "pnb2", "bob1", "bob2", "union1",
    "union2", "canara1", "canara2", "indian1", "indian2", "kvb1", "kvb2", "fed1", "fed2", "axis1", "axis2"
  ]

  /** The twenty-two scheme ids are pairwise distinct. */
  lemma SchemeIdsDistinct()
    ensures forall m, n :: 0 <= m < n < |SchemeIds| ==> SchemeIds[m] != SchemeIds[n]
  {
  }

  /** The two schemes of `schemes` carry ids `2 * k` and `2 * k + 1` of the id list. */
  predicate IdsFrom(schemes: seq<LoanScheme>, k: nat) {
    |schemes| == 2 && 2 * k + 1 < |SchemeIds| && schemes[0].id == SchemeIds[2 * k] && schemes[1].id == SchemeIds[2 * k + 1]
  }

  lemma FirstBanksIds()
    ensures IdsFrom(SbiOffers, 0) && IdsFrom(HdfcOffers, 1) && IdsFrom(IciciOffers, 2)
    ensures IdsFrom(PnbOffers, 3) && IdsFrom(BobOffers, 4) && IdsFrom(UnionOffers, 5)
  {
  }

  lemma LastBanksIds()
    ensures IdsFrom(CanaraOffers, 6) && IdsFrom(IndianOffers, 7) && IdsFrom(KvbOffers, 8)
    ensures IdsFrom(FederalOffers, 9) && IdsFrom(AxisOffers, 10)
  {
  }

  /** Scheme `p` of bank `i` carries id number `2 * i + p`. */
  lemma TableSchemeIds()
    ensures |SchemeIds| == 2 * |Entries|
    ensures forall i, p :: 0 <= i < |Entries| && 0 <= p < |Entries[i].1| ==>
      p < 2 && Entries[i].1[p].id == SchemeIds[2 * i + p]
  {
    EntryIds();
  }

  /** Bank `i` of the table carries ids `2 * i` and `2 * i + 1`. */
  lemma EntryIds()
    ensures forall i :: 0 <= i < |Entries| ==> IdsFrom(Entries[i].1, i)
  {
    FirstBanksIds();
    LastBanksIds();
  }

  /** No two rows of a table share an id, so an id names one scheme of one bank. */
  predicate UniqueIds(table: Table) {
    forall i, p, j, q ::
      && 0 <= i < |table| && 0 <= p < |table[i].1|
      && 0 <= j < |table| && 0 <= q < |table[j].1|
      && table[i].1[p].id == table[j].1[q].id
      ==> i == j && p == q
  }

  /** The table's ids are unique. */
  lemma SchemeIdsUnique()
    ensures UniqueIds(Entries)
  {
    TableSchemeIds();
    SchemeIdsDistinct();
  }
}
