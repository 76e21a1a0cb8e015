/** When the calls of the course NFT contract are accepted, and what stays on record from mint to sale. */
module NftRecords {
  import opened Common
  import opened NftSpec

  /** In a consistent state each call is accepted exactly when its caller is entitled to it. */
  lemma {:induction false} AcceptedIff(n: Nft, c: Timed)
    requires Consistent(n)
    ensures Apply(n, c).Ok? <==>
      match c.op
      case MintOp(admin, _, _, _, basis) => admin == n.admin && basis <= 10_000
      case TransferOp(from, _, id) => id in n.owners && n.owners[id] == from
      case AccessOp(owner, id, _, _) => id in n.owners && n.owners[id] == owner
      case BurnOp(owner, id) => id in n.owners && n.owners[id] == owner
      case ListOp(seller, id, price) => 0 < price && id in n.owners && n.owners[id] == seller && id !in n.listings
      case DelistOp(seller, id) => id in n.listings && n.listings[id].seller == seller
      case BuyOp(buyer, id, signers) =>
        id in n.listings && n.owners[id] == n.listings[id].seller && n.listings[id].seller in signers + {buyer}
  {
    if c.op.BuyOp? { SaleNeedsLister(n, c.op.buyer, c.op.id, c.op.signers); }
  }

  /** A mint takes the next id and records the course, the date and the terms of its royalty. */
  lemma {:induction false} MintRecordsExactly(
    n: Nft, now: nat, admin: Address, owner: Address, course: nat, instructor: Address, basis: nat)
    requires MintNft(n, now, admin, owner, course, instructor, basis).Ok?
    ensures var (m, id) := MintNft(n, now, admin, owner, course, instructor, basis).value;
      && id == n.nextId && m.metadata == n.metadata[id := Metadata(course, owner, now, basis)]
      && m.royalty == n.royalty[id := basis] && m.recipients == n.recipients[id := instructor]
  {
  }

  /** What is on record for an id besides its owner. */
  ghost predicate SameRecords(n: Nft, m: Nft, id: nat) {
    && (id in m.royalty <==> id in n.royalty) && (id in n.royalty ==> m.royalty[id] == n.royalty[id])
    && (id in m.recipients <==> id in n.recipients) && (id in n.recipients ==> m.recipients[id] == n.recipients[id])
    && (id in m.metadata ==> id in n.metadata && m.metadata[id] == n.metadata[id].(owner := m.metadata[id].owner))
  }

  lemma {:induction false} TransferKeepsRecords(n: Nft, from: Address, to: Address, x: nat, id: nat)
    requires TransferNft(n, from, to, x).Ok?
    ensures SameRecords(n, TransferNft(n, from, to, x).value, id)
  {
  }

  lemma {:induction false} BurnKeepsRecords(n: Nft, owner: Address, x: nat, id: nat)
    requires BurnNft(n, owner, x).Ok?
    ensures SameRecords(n, BurnNft(n, owner, x).value, id)
  {
  }

  lemma {:induction false} MintKeepsRecords(
    n: Nft, now: nat, admin: Address, owner: Address, course: nat, instructor: Address, basis: nat, id: nat)
    requires MintNft(n, now, admin, owner, course, instructor, basis).Ok? && id < n.nextId
    ensures SameRecords(n, MintNft(n, now, admin, owner, course, instructor, basis).value.0, id)
  {
  }

  lemma {:induction false} ListingsKeepRecords(n: Nft, c: Timed, id: nat)
    requires c.op.ListOp? || c.op.DelistOp? || c.op.AccessOp?
    ensures SameRecords(n, Step(n, c), id)
  {
  }

  lemma {:induction false} StepKeepsRecords(n: Nft, c: Timed, id: nat)
    requires id < n.nextId
    ensures SameRecords(n, Step(n, c), id) && n.nextId <= Step(n, c).nextId
  {
    if Apply(n, c).Ok? {
      CallEffect(n, c);
      match c.op
      case MintOp(admin, owner, course, instructor, basis) =>
        MintKeepsRecords(n, c.now, admin, owner, course, instructor, basis, id);
      case TransferOp(from, to, x) => TransferKeepsRecords(n, from, to, x, id);
      case BurnOp(owner, x) => BurnKeepsRecords(n, owner, x, id);
      case BuyOp(buyer, x, _) =>
        TransferKeepsRecords(n.(listings := n.listings - {x}), n.listings[x].seller, buyer, x, id);
      case _ => ListingsKeepRecords(n, c, id);
    }
  }

  lemma {:induction false} RecordsTwice(n: Nft, m: Nft, u: Nft, id: nat)
    requires SameRecords(n, m, id) && SameRecords(m, u, id)
    ensures SameRecords(n, u, id)
  {
  }

  /** Course, date, royalty and its recipient are fixed with the mint: no run of any calls changes them. */
  lemma {:induction false} RecordsAreForever(n: Nft, calls: seq<Timed>, id: nat)
    requires id < n.nextId
    ensures SameRecords(n, Run(n, calls), id)
    decreases |calls|
  {
    if calls != [] {
      StepKeepsRecords(n, calls[0], id);
      RecordsAreForever(Step(n, calls[0]), calls[1..], id);
      RecordsTwice(n, Step(n, calls[0]), Run(n, calls), id);
    }
  }

  lemma {:induction false} ListingStoresExactly(n: Nft, now: nat, seller: Address, id: nat, price: int)
    requires ListNft(n, now, seller, id, price).Ok?
    ensures ListNft(n, now, seller, id, price).value == n.(listings := n.listings[id := Listing(seller, price, now)])
  {
  }

  /**
   * From mint to sale: after any run, a purchase of the id pays, of the price it is listed at then, the basis points
   * fixed with the mint as royalty, rounded down, and the rest to the lister.
   */
  lemma {:induction false} SalePaysTheMintedRoyalty(
    n: Nft, now: nat, admin: Address, owner: Address, course: nat, instructor: Address, basis: nat,
    calls: seq<Timed>, buyer: Address, signers: set<Address>, royalty: int)
    requires MintNft(n, now, admin, owner, course, instructor, basis).Ok?
    requires var (m, id) := MintNft(n, now, admin, owner, course, instructor, basis).value; var u := Run(m, calls);
      id in u.listings && Rounded(royalty, u.listings[id].price * basis, 10_000)
    ensures var (m, id) := MintNft(n, now, admin, owner, course, instructor, basis).value; var u := Run(m, calls);
      var listing, r := u.listings[id], BuyNft(u, buyer, id, signers);
      r.Ok? ==> r.value.1 == Sale(listing.seller, listing.price - royalty, royalty)
  {
    var (m, id) := MintNft(n, now, admin, owner, course, instructor, basis).value;
    var u := Run(m, calls);
    RecordsAreForever(m, calls, id);
    RoundedIsTruncDiv(royalty, u.listings[id].price * basis, 10_000);
  }
}
