/** Ownership, owner lists, access rights and listings of the course NFT contract. */
module NftSpec {
  import opened Common

  datatype Metadata = Metadata(course: nat, owner: Address, purchaseDate: nat, royaltyBasis: nat)
  datatype Listing = Listing(seller: Address, price: int, listedAt: nat)
  datatype Sale = Sale(seller: Address, sellerAmount: int, royaltyAmount: int)

  datatype Nft = Nft(
    admin: Address, nextId: nat,
    owners: map<nat, Address>, metadata: map<nat, Metadata>, royalty: map<nat, nat>, recipients: map<nat, Address>,
    lists: map<Address, seq<nat>>, access: set<(nat, Address)>, listings: map<nat, Listing>, burned: set<nat>)

  datatype Error =
    | NotAdmin | BadRoyalty | NotFound | NotOwner | NoMetadata | AlreadyBurned | BadPrice | AlreadyListed | NotListed
    | NotSeller | NotSigned

  function Initial(admin: Address): Nft { Nft(admin, 0, map[], map[], map[], map[], map[], {}, map[], {}) }

  function Owned(n: Nft, who: Address): seq<nat> { if who in n.lists then n.lists[who] else [] }

  function MintNft(
    n: Nft, now: nat, admin: Address, owner: Address, course: nat, instructor: Address, royaltyBasis: nat)
    : Result<(Nft, nat), Error>
  {
    if admin != n.admin then Err(NotAdmin)
    else if royaltyBasis > 10_000 then Err(BadRoyalty)
    else
      var id := n.nextId;
      Ok((n.(nextId := id + 1, owners := n.owners[id := owner],
             metadata := n.metadata[id := Metadata(course, owner, now, royaltyBasis)],
             royalty := n.royalty[id := royaltyBasis], recipients := n.recipients[id := instructor],
             lists := n.lists[owner := Owned(n, owner) + [id]], access := n.access + {(id, owner)}), id))
  }

  /** The owner lists when `id` moves from one list to the end of the other, which may be the same list. */
  function MovedLists(n: Nft, from: Address, to: Address, id: nat): map<Address, seq<nat>> {
    var lists := if from in n.lists then n.lists[from := RemoveFirst(n.lists[from], id)] else n.lists;
    lists[to := (if to in lists then lists[to] else []) + [id]]
  }

  function TransferNft(n: Nft, from: Address, to: Address, id: nat): Result<Nft, Error> {
    if id !in n.owners then Err(NotFound)
    else if n.owners[id] != from then Err(NotOwner)
    else if id !in n.metadata then Err(NoMetadata)
    else
      Ok(n.(owners := n.owners[id := to], metadata := n.metadata[id := n.metadata[id].(owner := to)],
            lists := MovedLists(n, from, to, id), access := n.access + {(id, to)}))
  }

  /** Granting or revoking the access of any holder, by the current owner. */
  function ChangeAccess(n: Nft, owner: Address, id: nat, holder: Address, grant: bool): Result<Nft, Error> {
    if id !in n.owners then Err(NotFound)
    else if n.owners[id] != owner then Err(NotOwner)
    else Ok(n.(access := if grant then n.access + {(id, holder)} else n.access - {(id, holder)}))
  }

  function BurnNft(n: Nft, owner: Address, id: nat): Result<Nft, Error> {
    if id !in n.owners then Err(NotFound)
    else if n.owners[id] != owner then Err(NotOwner)
    else if id in n.burned then Err(AlreadyBurned)
    else
      Ok(n.(lists := if owner in n.lists then n.lists[owner := RemoveFirst(n.lists[owner], id)] else n.lists,
            listings := n.listings - {id}, burned := n.burned + {id},
            owners := n.owners - {id}, metadata := n.metadata - {id}))
  }

  function ListNft(n: Nft, now: nat, seller: Address, id: nat, price: int): Result<Nft, Error> {
    if price <= 0 then Err(BadPrice)
    else if id !in n.owners then Err(NotFound)
    else if n.owners[id] != seller then Err(NotOwner)
    else if id in n.listings then Err(AlreadyListed)
    else Ok(n.(listings := n.listings[id := Listing(seller, price, now)]))
  }

  function DelistNft(n: Nft, seller: Address, id: nat): Result<Nft, Error> {
    if id !in n.listings then Err(NotListed)
    else if n.listings[id].seller != seller then Err(NotSeller)
    else Ok(n.(listings := n.listings - {id}))
  }

  /**
   * Takes the listing down, then transfers from the lister to the buyer; the price is split with the royalty. The
   * inner transfer demands the lister's signature as well: `signers` are those who signed the call besides the buyer.
   */
  function BuyNft(n: Nft, buyer: Address, id: nat, signers: set<Address>): Result<(Nft, Sale), Error> {
    if id !in n.listings then Err(NotListed)
    else if n.listings[id].seller != buyer && n.listings[id].seller !in signers then Err(NotSigned)
    else
      var listing := n.listings[id];
      match TransferNft(n.(listings := n.listings - {id}), listing.seller, buyer, id)
      case Err(e) => Err(e)
      case Ok(m) =>
        var royalty := TruncDiv(listing.price * (if id in n.royalty then n.royalty[id] else 0), 10_000);
        Ok((m, Sale(listing.seller, listing.price - royalty, royalty)))
  }

  // ---------- Runs ----------

  datatype Op =
    | MintOp(admin: Address, owner: Address, course: nat, instructor: Address, royaltyBasis: nat)
    | TransferOp(from: Address, to: Address, id: nat)
    | AccessOp(owner: Address, id: nat, holder: Address, grant: bool)
    | BurnOp(owner: Address, id: nat)
    | ListOp(seller: Address, id: nat, price: int)
    | DelistOp(seller: Address, id: nat)
    | BuyOp(buyer: Address, id: nat, signers: set<Address>)

  datatype Timed = Timed(now: nat, op: Op)

  function Apply(n: Nft, c: Timed): Result<Nft, Error> {
    match c.op
    case MintOp(admin, owner, course, instructor, basis) =>
      (match MintNft(n, c.now, admin, owner, course, instructor, basis) case Ok((m, _)) => Ok(m) case Err(e) => Err(e))
    case TransferOp(from, to, id) => TransferNft(n, from, to, id)
    case AccessOp(owner, id, holder, grant) => ChangeAccess(n, owner, id, holder, grant)
    case BurnOp(owner, id) => BurnNft(n, owner, id)
    case ListOp(seller, id, price) => ListNft(n, c.now, seller, id, price)
    case DelistOp(seller, id) => DelistNft(n, seller, id)
    case BuyOp(buyer, id, signers) =>
      (match BuyNft(n, buyer, id, signers) case Ok((m, _)) => Ok(m) case Err(e) => Err(e))
  }

  function Step(n: Nft, c: Timed): Nft {
    match Apply(n, c) case Ok(m) => m case Err(_) => n
  }

  function Run(n: Nft, calls: seq<Timed>): Nft
    decreases |calls|
  {
    if calls == [] then n else Run(Step(n, calls[0]), calls[1..])
  }

  // ---------- What an accepted call does ----------

  /** The effect on owners, access rights, listings and burned ids, and who had to own the id. */
  predicate Effect(n: Nft, op: Op, u: Nft) {
    match op
    case MintOp(_, owner, _, _, _) =>
      && u.owners == n.owners[n.nextId := owner] && u.access == n.access + {(n.nextId, owner)}
      && u.listings == n.listings && u.burned == n.burned && u.nextId == n.nextId + 1
    case TransferOp(from, to, id) =>
      && id in n.owners && n.owners[id] == from
      && u.owners == n.owners[id := to] && u.access == n.access + {(id, to)}
      && u.listings == n.listings && u.burned == n.burned && u.nextId == n.nextId
    case AccessOp(owner, id, holder, grant) =>
      && id in n.owners && n.owners[id] == owner
      && u.access == (if grant then n.access + {(id, holder)} else n.access - {(id, holder)})
      && u.owners == n.owners && u.listings == n.listings && u.burned == n.burned && u.nextId == n.nextId
    case BurnOp(owner, id) =>
      && id in n.owners && n.owners[id] == owner
      && u.owners == n.owners - {id} && u.access == n.access
      && u.listings == n.listings - {id} && u.burned == n.burned + {id} && u.nextId == n.nextId
    case ListOp(seller, id, price) =>
      && id in n.owners && n.owners[id] == seller && id !in n.listings && 0 < price
      && u.listings.Keys == n.listings.Keys + {id} && u.listings[id].seller == seller && u.listings - {id} == n.listings
      && u.owners == n.owners && u.access == n.access && u.burned == n.burned && u.nextId == n.nextId
    case DelistOp(seller, id) =>
      && id in n.listings && n.listings[id].seller == seller && u.listings == n.listings - {id}
      && u.owners == n.owners && u.access == n.access && u.burned == n.burned && u.nextId == n.nextId
    case BuyOp(buyer, id, signers) =>
      && id in n.listings && id in n.owners && n.owners[id] == n.listings[id].seller
      && n.listings[id].seller in signers + {buyer}
      && u.owners == n.owners[id := buyer] && u.access == n.access + {(id, buyer)}
      && u.listings == n.listings - {id} && u.burned == n.burned && u.nextId == n.nextId
  }

  lemma {:induction false} BuyEffect(n: Nft, c: Timed)
    requires c.op.BuyOp? && Apply(n, c).Ok?
    ensures Effect(n, c.op, Apply(n, c).value)
  {
  }

  lemma {:induction false} ListEffect(n: Nft, c: Timed)
    requires (c.op.ListOp? || c.op.DelistOp? || c.op.AccessOp?) && Apply(n, c).Ok?
    ensures Effect(n, c.op, Apply(n, c).value)
  {
  }

  lemma {:induction false} CallEffect(n: Nft, c: Timed)
    requires Apply(n, c).Ok?
    ensures Effect(n, c.op, Apply(n, c).value)
  {
    if c.op.BuyOp? {
      BuyEffect(n, c);
    } else if c.op.ListOp? || c.op.DelistOp? || c.op.AccessOp? {
      ListEffect(n, c);
    }
  }

  // ---------- Ownership ----------

  /** Every owner's list holds exactly the ids the owner record gives that owner, once each. */
  ghost predicate ListsMatch(lists: map<Address, seq<nat>>, owners: map<nat, Address>) {
    forall a :: a in lists ==>
      && NoDuplicates(lists[a])
      && forall id :: id in lists[a] ==> id in owners && owners[id] == a
  }

  ghost predicate Complete(lists: map<Address, seq<nat>>, owners: map<nat, Address>) {
    forall id :: id in owners ==> owners[id] in lists && id in lists[owners[id]]
  }

  /** Owners, metadata, listings and burned ids agree. */
  ghost predicate RecordsAgree(n: Nft) {
    && n.metadata.Keys == n.owners.Keys
    && (forall id :: id in n.owners ==> id < n.nextId && id !in n.burned && n.metadata[id].owner == n.owners[id])
    && (forall id :: id in n.burned ==> id < n.nextId)
    && (forall id :: id in n.listings ==> id in n.owners && n.listings[id].price > 0)
    && (forall id :: id in n.royalty ==> n.royalty[id] <= 10_000)
  }

  ghost predicate Consistent(n: Nft) {
    ListsMatch(n.lists, n.owners) && Complete(n.lists, n.owners) && RecordsAgree(n)
  }

  lemma {:induction false} AppendFresh(s: seq<nat>, id: nat)
    requires NoDuplicates(s) && id !in s
    ensures NoDuplicates(s + [id]) && forall x :: x in s + [id] <==> x in s || x == id
  {
  }

  /** A new id at the end of its owner's list. */
  lemma {:induction false} MintedListsMatch(n: Nft, owner: Address, id: nat)
    requires ListsMatch(n.lists, n.owners) && Complete(n.lists, n.owners) && id !in n.owners
    ensures ListsMatch(n.lists[owner := Owned(n, owner) + [id]], n.owners[id := owner])
    ensures Complete(n.lists[owner := Owned(n, owner) + [id]], n.owners[id := owner])
  {
    AppendFresh(Owned(n, owner), id);
  }

  lemma {:induction false} MintKeeps(
    n: Nft, now: nat, admin: Address, owner: Address, course: nat, instructor: Address, basis: nat)
    requires Consistent(n) && MintNft(n, now, admin, owner, course, instructor, basis).Ok?
    ensures Consistent(MintNft(n, now, admin, owner, course, instructor, basis).value.0)
  {
    MintedListsMatch(n, owner, n.nextId);
  }

  /** Moving an id between two lists, or to the end of its own list, keeps lists and owner records in step. */
  lemma {:induction false} MovedListsMatch(n: Nft, from: Address, to: Address, id: nat)
    requires ListsMatch(n.lists, n.owners) && Complete(n.lists, n.owners)
    requires id in n.owners && n.owners[id] == from
    ensures ListsMatch(MovedLists(n, from, to, id), n.owners[id := to])
    ensures Complete(MovedLists(n, from, to, id), n.owners[id := to])
  {
    RemoveFirstMembers(n.lists[from], id);
    var cleared := n.lists[from := RemoveFirst(n.lists[from], id)];
    var target := if to in cleared then cleared[to] else [];
    assert id !in target;
    AppendFresh(target, id);
  }

  lemma {:induction false} TransferKeeps(n: Nft, from: Address, to: Address, id: nat)
    requires Consistent(n) && TransferNft(n, from, to, id).Ok?
    ensures Consistent(TransferNft(n, from, to, id).value)
  {
    MovedListsMatch(n, from, to, id);
  }

  lemma {:induction false} BurnedListsMatch(n: Nft, owner: Address, id: nat)
    requires ListsMatch(n.lists, n.owners) && Complete(n.lists, n.owners)
    requires id in n.owners && n.owners[id] == owner
    ensures ListsMatch(n.lists[owner := RemoveFirst(n.lists[owner], id)], n.owners - {id})
    ensures Complete(n.lists[owner := RemoveFirst(n.lists[owner], id)], n.owners - {id})
  {
    RemoveFirstMembers(n.lists[owner], id);
  }

  lemma {:induction false} BurnKeeps(n: Nft, owner: Address, id: nat)
    requires Consistent(n) && BurnNft(n, owner, id).Ok?
    ensures Consistent(BurnNft(n, owner, id).value)
  {
    BurnedListsMatch(n, owner, id);
    assert RecordsAgree(BurnNft(n, owner, id).value);
  }

  lemma {:induction false} BuyKeeps(n: Nft, buyer: Address, id: nat, signers: set<Address>)
    requires Consistent(n) && BuyNft(n, buyer, id, signers).Ok?
    ensures Consistent(BuyNft(n, buyer, id, signers).value.0)
  {
    var delisted := n.(listings := n.listings - {id});
    assert Consistent(delisted);
    TransferKeeps(delisted, n.listings[id].seller, buyer, id);
  }

  /** Listings and access rights are the calls that touch neither owners nor lists. */
  lemma {:induction false} ListingsKeep(n: Nft, c: Timed)
    requires Consistent(n) && (c.op.ListOp? || c.op.DelistOp? || c.op.AccessOp?)
    ensures Consistent(Step(n, c))
  {
  }

  lemma {:induction false} StepKeeps(n: Nft, c: Timed)
    requires Consistent(n)
    ensures Consistent(Step(n, c))
  {
    if Apply(n, c).Ok? {
      match c.op
      case MintOp(admin, owner, course, instructor, basis) =>
        MintKeeps(n, c.now, admin, owner, course, instructor, basis);
      case TransferOp(from, to, id) => TransferKeeps(n, from, to, id);
      case BurnOp(owner, id) => BurnKeeps(n, owner, id);
      case BuyOp(buyer, id, signers) => BuyKeeps(n, buyer, id, signers);
      case _ => ListingsKeep(n, c);
    }
  }

  lemma {:induction false} BurnedStay(n: Nft, c: Timed)
    ensures n.burned <= Step(n, c).burned
  {
    if Apply(n, c).Ok? { CallEffect(n, c); }
  }

  lemma {:induction false} RunKeeps(n: Nft, calls: seq<Timed>)
    requires Consistent(n)
    ensures Consistent(Run(n, calls)) && n.burned <= Run(n, calls).burned
    decreases |calls|
  {
    if calls != [] {
      StepKeeps(n, calls[0]);
      BurnedStay(n, calls[0]);
      RunKeeps(Step(n, calls[0]), calls[1..]);
    }
  }

  /**
   * After any run of mints, transfers (to oneself too), burns, listings and sales: an id with an owner stands exactly
   * once in that owner's list and in no other, its metadata names the same owner, and a burned id has no owner.
   */
  lemma {:induction false} OwnershipIsExact(admin: Address, calls: seq<Timed>, id: nat, who: Address)
    ensures var n := Run(Initial(admin), calls);
      && Consistent(n)
      && multiset(Owned(n, who))[id] == (if id in n.owners && n.owners[id] == who then 1 else 0)
      && (id in n.owners ==> id in n.metadata && n.metadata[id].owner == n.owners[id])
      && (id in n.burned ==> id !in n.owners && id !in n.listings)
  {
    RunKeeps(Initial(admin), calls);
    var n := Run(Initial(admin), calls);
    if id in n.owners && n.owners[id] == who {
      var i :| 0 <= i < |n.lists[who]| && n.lists[who][i] == id;
      OccursOnce(n.lists[who], i);
    } else {
      assert id !in Owned(n, who);
    }
  }

  /** A burned id is never owned, listed or sold again, whatever is called afterwards. */
  lemma {:induction false} BurnedForever(n: Nft, owner: Address, id: nat, calls: seq<Timed>)
    requires Consistent(n) && BurnNft(n, owner, id).Ok?
    ensures var m := Run(BurnNft(n, owner, id).value, calls);
      id in m.burned && id !in m.owners && id !in m.listings && forall a :: id !in Owned(m, a)
  {
    BurnKeeps(n, owner, id);
    RunKeeps(BurnNft(n, owner, id).value, calls);
  }

  /** Calls by which `who` gives an id away or offers it: a transfer, a burn or a listing. */
  predicate Offers(op: Op, who: Address, id: nat) {
    || (op.TransferOp? && op.from == who && op.id == id)
    || (op.BurnOp? && op.owner == who && op.id == id)
    || (op.ListOp? && op.seller == who && op.id == id)
  }

  predicate NeverOffers(calls: seq<Timed>, who: Address, id: nat) {
    forall i :: 0 <= i < |calls| ==> !Offers(calls[i].op, who, id)
  }

  predicate HeldUnlisted(n: Nft, who: Address, id: nat) {
    id in n.owners && n.owners[id] == who && (id in n.listings ==> n.listings[id].seller != who)
  }

  lemma {:induction false} EffectKeepsHeld(n: Nft, op: Op, u: Nft, who: Address, id: nat)
    requires Consistent(n) && Effect(n, op, u) && HeldUnlisted(n, who, id) && !Offers(op, who, id)
    ensures HeldUnlisted(u, who, id)
  {
  }

  lemma {:induction false} StepKeepsHeld(n: Nft, c: Timed, who: Address, id: nat)
    requires Consistent(n) && HeldUnlisted(n, who, id) && !Offers(c.op, who, id)
    ensures HeldUnlisted(Step(n, c), who, id)
  {
    if Apply(n, c).Ok? {
      CallEffect(n, c);
      EffectKeepsHeld(n, c.op, Apply(n, c).value, who, id);
    }
  }

  /**
   * Nobody loses a token without a call of their own: an owner without a listing for an id keeps it over any run in
   * which they neither transfer, burn nor list it, whatever everybody else calls, stale listings of others included.
   */
  lemma {:induction false} HoldersKeepTheirTokens(n: Nft, calls: seq<Timed>, who: Address, id: nat)
    requires Consistent(n) && HeldUnlisted(n, who, id) && NeverOffers(calls, who, id)
    ensures HeldUnlisted(Run(n, calls), who, id)
    decreases |calls|
  {
    if calls != [] {
      StepKeepsHeld(n, calls[0], who, id);
      StepKeeps(n, calls[0]);
      HoldersKeepTheirTokens(Step(n, calls[0]), calls[1..], who, id);
    }
  }

  /** Calls an owner of `id` signs to part with it: a transfer, a burn, or a purchase by somebody. */
  predicate PartsWith(op: Op, who: Address, id: nat) {
    || (op.TransferOp? && op.from == who && op.id == id)
    || (op.BurnOp? && op.owner == who && op.id == id)
    || (op.BuyOp? && op.id == id && (who == op.buyer || who in op.signers))
  }

  predicate NeverPartsWith(calls: seq<Timed>, who: Address, id: nat) {
    forall i :: 0 <= i < |calls| ==> !PartsWith(calls[i].op, who, id)
  }

  lemma {:induction false} EffectNeedsSignature(n: Nft, op: Op, u: Nft, who: Address, id: nat)
    requires Consistent(n) && Effect(n, op, u) && id in n.owners && n.owners[id] == who && !PartsWith(op, who, id)
    ensures id in u.owners && u.owners[id] == who
  {
  }

  lemma {:induction false} StepNeedsSignature(n: Nft, c: Timed, who: Address, id: nat)
    requires Consistent(n) && id in n.owners && n.owners[id] == who && !PartsWith(c.op, who, id)
    ensures id in Step(n, c).owners && Step(n, c).owners[id] == who
  {
    if Apply(n, c).Ok? {
      CallEffect(n, c);
      EffectNeedsSignature(n, c.op, Apply(n, c).value, who, id);
    }
  }

  /** Even with a live listing an owner keeps the id over any run without a call on it that they signed. */
  lemma {:induction false} PartingNeedsSignature(n: Nft, calls: seq<Timed>, who: Address, id: nat)
    requires Consistent(n) && id in n.owners && n.owners[id] == who && NeverPartsWith(calls, who, id)
    ensures id in Run(n, calls).owners && Run(n, calls).owners[id] == who
    decreases |calls|
  {
    if calls != [] {
      StepNeedsSignature(n, calls[0], who, id);
      StepKeeps(n, calls[0]);
      PartingNeedsSignature(Step(n, calls[0]), calls[1..], who, id);
    }
  }

  // ---------- Access ----------

  /** Whether `who` may use `id` after an accepted call: acquiring it or a grant opens access, a revoke closes it. */
  predicate Accessible(n: Nft, op: Op, id: nat, who: Address, before: bool) {
    match op
    case MintOp(_, owner, _, _, _) => before || (n.nextId == id && owner == who)
    case TransferOp(_, to, x) => before || (x == id && to == who)
    case BuyOp(buyer, x, _) => before || (x == id && buyer == who)
    case AccessOp(_, x, holder, grant) => if (x, holder) == (id, who) then grant else before
    case _ => before
  }

  predicate AccessAfter(n: Nft, c: Timed, id: nat, who: Address, before: bool) {
    if Apply(n, c).Ok? then Accessible(n, c.op, id, who, before) else before
  }

  lemma {:induction false} EffectOnAccess(n: Nft, op: Op, u: Nft, id: nat, who: Address)
    requires Effect(n, op, u)
    ensures (id, who) in u.access <==> Accessible(n, op, id, who, (id, who) in n.access)
  {
  }

  predicate AccessAfterAll(n: Nft, calls: seq<Timed>, id: nat, who: Address, before: bool)
    decreases |calls|
  {
    if calls == [] then before
    else AccessAfterAll(Step(n, calls[0]), calls[1..], id, who, AccessAfter(n, calls[0], id, who, before))
  }

  /**
   * After any run, access is as the last accepted call on it left it: former owners keep theirs until it is revoked.
   */
  lemma {:induction false} AccessFollowsCalls(n: Nft, calls: seq<Timed>, id: nat, who: Address)
    ensures (id, who) in Run(n, calls).access <==> AccessAfterAll(n, calls, id, who, (id, who) in n.access)
    decreases |calls|
  {
    if calls != [] {
      if Apply(n, calls[0]).Ok? {
        CallEffect(n, calls[0]);
        EffectOnAccess(n, calls[0].op, Apply(n, calls[0]).value, id, who);
      }
      AccessFollowsCalls(Step(n, calls[0]), calls[1..], id, who);
    }
  }

  /** No accepted call of the run revokes the access of `who` to `id`. */
  predicate NeverRevoked(n: Nft, calls: seq<Timed>, id: nat, who: Address)
    decreases |calls|
  {
    calls == []
    || (&& !(calls[0].op.AccessOp? && (calls[0].op.id, calls[0].op.holder) == (id, who) && !calls[0].op.grant
             && Apply(n, calls[0]).Ok?)
        && NeverRevoked(Step(n, calls[0]), calls[1..], id, who))
  }

  lemma {:induction false} AccessLasts(n: Nft, calls: seq<Timed>, id: nat, who: Address)
    requires (id, who) in n.access && NeverRevoked(n, calls, id, who)
    ensures (id, who) in Run(n, calls).access
    decreases |calls|
  {
    if calls != [] {
      if Apply(n, calls[0]).Ok? {
        CallEffect(n, calls[0]);
        EffectOnAccess(n, calls[0].op, Apply(n, calls[0]).value, id, who);
      }
      AccessLasts(Step(n, calls[0]), calls[1..], id, who);
    }
  }

  /**
   * A transfer opens access to the new owner and closes nobody's: the former owner, too, keeps the access they had
   * over any run in which no owner revokes it.
   */
  lemma {:induction false} FormerOwnerKeepsAccess(
    n: Nft, from: Address, to: Address, id: nat, calls: seq<Timed>, who: Address)
    requires TransferNft(n, from, to, id).Ok? && ((id, who) in n.access || who == to)
    requires NeverRevoked(TransferNft(n, from, to, id).value, calls, id, who)
    ensures (id, who) in Run(TransferNft(n, from, to, id).value, calls).access
  {
    AccessLasts(TransferNft(n, from, to, id).value, calls, id, who);
  }

  lemma {:induction false} EffectOnBurned(n: Nft, op: Op, u: Nft, id: nat, who: Address)
    requires Consistent(n) && id in n.burned && Effect(n, op, u)
    ensures (id, who) in u.access <==> (id, who) in n.access
  {
  }

  lemma {:induction false} StepKeepsBurnedAccess(n: Nft, c: Timed, id: nat, who: Address)
    requires Consistent(n) && id in n.burned
    ensures (id, who) in Step(n, c).access <==> (id, who) in n.access
  {
    if Apply(n, c).Ok? {
      CallEffect(n, c);
      EffectOnBurned(n, c.op, Apply(n, c).value, id, who);
    }
  }

  /** With the burn the access rights of an id are frozen: there is no owner left to grant or revoke any. */
  lemma {:induction false} BurnFreezesAccess(n: Nft, owner: Address, id: nat, calls: seq<Timed>, who: Address)
    requires Consistent(n) && BurnNft(n, owner, id).Ok?
    ensures (id, who) in Run(BurnNft(n, owner, id).value, calls).access <==> (id, who) in n.access
  {
    BurnKeeps(n, owner, id);
    FrozenRun(BurnNft(n, owner, id).value, calls, id, who);
  }

  lemma {:induction false} FrozenRun(n: Nft, calls: seq<Timed>, id: nat, who: Address)
    requires Consistent(n) && id in n.burned
    ensures (id, who) in Run(n, calls).access <==> (id, who) in n.access
    decreases |calls|
  {
    if calls != [] {
      StepKeeps(n, calls[0]);
      BurnedStay(n, calls[0]);
      StepKeepsBurnedAccess(n, calls[0], id, who);
      FrozenRun(Step(n, calls[0]), calls[1..], id, who);
    }
  }

  // ---------- Sales ----------

  /**
   * A purchase is accepted exactly when the id is listed, the lister still owns it and has signed too; then the buyer
   * owns it, the listing is gone, and seller amount and royalty are non-negative and add up to the price.
   */
  lemma {:induction false} SaleNeedsLister(n: Nft, buyer: Address, id: nat, signers: set<Address>)
    requires Consistent(n)
    ensures BuyNft(n, buyer, id, signers).Ok?
       <==> id in n.listings && n.owners[id] == n.listings[id].seller && n.listings[id].seller in signers + {buyer}
    ensures BuyNft(n, buyer, id, signers).Ok? ==>
      var (m, sale) := BuyNft(n, buyer, id, signers).value;
      && id in m.owners && m.owners[id] == buyer && id !in m.listings
      && sale.seller == n.owners[id]
      && sale.sellerAmount + sale.royaltyAmount == n.listings[id].price
      && 0 <= sale.royaltyAmount && 0 <= sale.sellerAmount
  {
    if id in n.listings {
      var price, basis := n.listings[id].price, if id in n.royalty then n.royalty[id] else 0;
      MulNonNegative(price, basis);
      TruncDivBounds(price * basis, 10_000);
      MulMono(price, basis, price, 10_000);
      MulCancel(TruncDiv(price * basis, 10_000), price, 10_000);
    }
  }

  /** A listing outlives a transfer: until the old seller delists it, the new owner can neither sell nor list the id. */
  lemma {:induction false} StaleListingBlocksNewOwner(
    n: Nft, now: nat, to: Address, id: nat, price: int, buyer: Address, signers: set<Address>)
    requires Consistent(n) && id in n.listings && n.owners[id] == n.listings[id].seller
    requires to != n.owners[id] && 0 < price
    ensures var m := TransferNft(n, n.owners[id], to, id).value;
      && TransferNft(n, n.owners[id], to, id).Ok?
      && ListNft(m, now, to, id, price) == Err(AlreadyListed)
      && BuyNft(m, buyer, id, signers).Err?
      && DelistNft(m, to, id) == Err(NotSeller)
      && DelistNft(m, n.owners[id], id).Ok? && ListNft(DelistNft(m, n.owners[id], id).value, now, to, id, price).Ok?
  {
  }
}
