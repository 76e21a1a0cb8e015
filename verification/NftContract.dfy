/** The course NFT contract over its storage. */
module NftContract {
  import opened Common
  import opened NftSpec

  class CourseNfts {
    var admin: Address
    var nextId: nat
    var owners: map<nat, Address>
    var metadata: map<nat, Metadata>
    var royalty: map<nat, nat>
    var recipients: map<nat, Address>
    var lists: map<Address, seq<nat>>
    var access: set<(nat, Address)>
    var listings: map<nat, Listing>
    var burned: set<nat>

    function State(): Nft
      reads this
    {
      Nft(admin, nextId, owners, metadata, royalty, recipients, lists, access, listings, burned)
    }

    constructor (admin: Address)
      ensures State() == Initial(admin)
    {
      this.admin, nextId := admin, 0;
      owners, metadata, royalty, recipients := map[], map[], map[], map[];
      lists, access, listings, burned := map[], {}, map[], {};
    }

    method MintCourseNft(
      now: nat, caller: Address, owner: Address, course: nat, instructor: Address, royaltyBasis: nat)
      returns (r: Result<nat, Error>)
      modifies this
      ensures Matches(old(State()), State(), r,
                      MintNft(old(State()), now, caller, owner, course, instructor, royaltyBasis))
    {
      if caller != admin { return Err(NotAdmin); }
      if royaltyBasis > 10_000 { return Err(BadRoyalty); }
      var id := nextId;
      metadata := metadata[id := Metadata(course, owner, now, royaltyBasis)];
      owners := owners[id := owner];
      royalty := royalty[id := royaltyBasis];
      recipients := recipients[id := instructor];
      var nfts := if owner in lists then lists[owner] else [];
      lists := lists[owner := nfts + [id]];
      access := access + {(id, owner)};
      nextId := id + 1;
      return Ok(id);
    }

    method RemoveFromList(owner: Address, id: nat)
      modifies this`lists
      ensures lists
           == if owner in old(lists) then old(lists)[owner := RemoveFirst(old(lists)[owner], id)] else old(lists)
    {
      if owner in lists {
        var nfts := RemoveElement(lists[owner], id);
        lists := lists[owner := nfts];
      }
    }

    method TransferNft(from: Address, to: Address, id: nat) returns (r: Result<(), Error>)
      modifies this`owners, this`metadata, this`lists, this`access
      ensures Ends(old(State()), State(), r, NftSpec.TransferNft(old(State()), from, to, id))
    {
      if id !in owners { return Err(NotFound); }
      if owners[id] != from { return Err(NotOwner); }
      if id !in metadata { return Err(NoMetadata); }
      owners := owners[id := to];
      metadata := metadata[id := metadata[id].(owner := to)];
      RemoveFromList(from, id);
      var nfts := if to in lists then lists[to] else [];
      lists := lists[to := nfts + [id]];
      access := access + {(id, to)};
      return Ok(());
    }

    method GrantAccess(owner: Address, id: nat, holder: Address) returns (r: Result<(), Error>)
      modifies this`access
      ensures Ends(old(State()), State(), r, ChangeAccess(old(State()), owner, id, holder, true))
    {
      if id !in owners { return Err(NotFound); }
      if owners[id] != owner { return Err(NotOwner); }
      access := access + {(id, holder)};
      return Ok(());
    }

    method RevokeAccess(owner: Address, id: nat, holder: Address) returns (r: Result<(), Error>)
      modifies this`access
      ensures Ends(old(State()), State(), r, ChangeAccess(old(State()), owner, id, holder, false))
    {
      if id !in owners { return Err(NotFound); }
      if owners[id] != owner { return Err(NotOwner); }
      access := access - {(id, holder)};
      return Ok(());
    }

    method BurnNft(owner: Address, id: nat) returns (r: Result<(), Error>)
      modifies this
      ensures Ends(old(State()), State(), r, NftSpec.BurnNft(old(State()), owner, id))
    {
      if id !in owners { return Err(NotFound); }
      if owners[id] != owner { return Err(NotOwner); }
      if id in burned { return Err(AlreadyBurned); }
      RemoveFromList(owner, id);
      listings := listings - {id};
      burned := burned + {id};
      owners := owners - {id};
      metadata := metadata - {id};
      return Ok(());
    }

    method ListNft(now: nat, seller: Address, id: nat, price: int) returns (r: Result<(), Error>)
      modifies this`listings
      ensures Ends(old(State()), State(), r, NftSpec.ListNft(old(State()), now, seller, id, price))
    {
      if price <= 0 { return Err(BadPrice); }
      if id !in owners { return Err(NotFound); }
      if owners[id] != seller { return Err(NotOwner); }
      if id in listings { return Err(AlreadyListed); }
      listings := listings[id := Listing(seller, price, now)];
      return Ok(());
    }

    method DelistNft(seller: Address, id: nat) returns (r: Result<(), Error>)
      modifies this`listings
      ensures Ends(old(State()), State(), r, NftSpec.DelistNft(old(State()), seller, id))
    {
      if id !in listings { return Err(NotListed); }
      if listings[id].seller != seller { return Err(NotSeller); }
      listings := listings - {id};
      return Ok(());
    }

    /** The removed listing is put back when the transfer fails, as the revert does. */
    method BuyNft(buyer: Address, id: nat, signers: set<Address>) returns (r: Result<Sale, Error>)
      modifies this`owners, this`metadata, this`lists, this`access, this`listings
      ensures Matches(old(State()), State(), r, NftSpec.BuyNft(old(State()), buyer, id, signers))
    {
      if id !in listings { return Err(NotListed); }
      if listings[id].seller != buyer && listings[id].seller !in signers { return Err(NotSigned); }
      var before := listings;
      var listing := listings[id];
      listings := listings - {id};
      var moved := TransferNft(listing.seller, buyer, id);
      if moved.Err? {
        listings := before;
        return Err(moved.error);
      }
      var basis := if id in royalty then royalty[id] else 0;
      var royaltyAmount := TruncDiv(listing.price * basis, 10_000);
      return Ok(Sale(listing.seller, listing.price - royaltyAmount, royaltyAmount));
    }
  }
}
