/** The list rules of the MISO auction "Bids" tab
    (`src/features/miso/AuctionTabs/AuctionBidsTab.tsx`): the table
    configuration, the "show my bids only" filter, the participant count and
    the page count. Rendering, sorting and pagination internals of the table
    library are not modelled. */
module AuctionBids {
  import opened Js
  import Seqs

  /** `AuctionCommitment`; the committed amount is its raw integer value. */
  datatype Commitment = Commitment(address: string, amount: nat, blockNumber: nat, txHash: string)

  /** A table column: header text, the commitment field it shows, CSS classes. */
  datatype Column = Column(header: string, accessor: string, className: string)

  /** `{ id, desc }` of `initialState.sortBy` */
  datatype SortRule = SortRule(id: string, desc: bool)

  /** The `config` handed to `useTable`. */
  datatype TableConfig = TableConfig(
    columns: seq<Column>,
    data: seq<Commitment>,
    minWidth: nat,
    pageSize: nat,
    sortBy: seq<SortRule>,
    autoResetFilters: bool)

  /** The four columns, in display order. */
  const BidColumns: seq<Column> := [
    Column("Address", "address", "text-left"),
    Column("Committed", "amount", "text-right justify-end"),
    Column("Block", "blockNumber", "text-right justify-end hidden md:block"),
    Column("Transaction", "txHash", "text-right justify-end hidden lg:block")
  ]

  const DefaultPageSize: nat := 10

  function Accessors(columns: seq<Column>): (r: seq<string>)
    ensures |r| == |columns|
  {
    seq(|columns|, i requires 0 <= i < |columns| => columns[i].accessor)
  }

  /** `useCommitmentTableConfig(commitments)` for the connected `chainId`. */
  function CommitmentTableConfig(commitments: Option<seq<Commitment>>, chainId: Option<int>): (r: TableConfig)
    ensures |r.columns| == 0 <==> !TruthyNumber(chainId)
    ensures TruthyNumber(chainId) ==> Accessors(r.columns) == ["address", "amount", "blockNumber", "txHash"]
    ensures commitments.None? ==> r.data == []
    ensures commitments.Some? ==> r.data == commitments.value
    ensures r.pageSize == 10 && r.minWidth == 0 && !r.autoResetFilters
    ensures r.sortBy == [SortRule("blockNumber", true)]
  {
    TableConfig(
      if TruthyNumber(chainId) then BidColumns else [],
      if commitments.Some? then commitments.value else [],
      0, DefaultPageSize, [SortRule("blockNumber", true)], false)
  }

  /** Whenever the table has columns, the initial sort key is one of them and
      the sort is descending. */
  lemma InitialSortNamesAColumn(commitments: Option<seq<Commitment>>, chainId: Option<int>)
    requires TruthyNumber(chainId)
    ensures
      var config := CommitmentTableConfig(commitments, chainId);
      |config.sortBy| == 1 && config.sortBy[0].desc
      && exists j :: 0 <= j < |config.columns| && config.columns[j].accessor == config.sortBy[0].id
  {
    var config := CommitmentTableConfig(commitments, chainId);
    assert config.columns[2].accessor == "blockNumber";
  }

  /** `el.address.toLowerCase() === account?.toLowerCase()`: never true without
      an account, since a string is never `undefined`. */
  predicate IsOwnBid(account: Option<string>, c: Commitment)
  {
    account.Some? && Lower(c.address) == Lower(account.value)
  }

  /** The own-bid test depends on the account only through its lower-cased
      spelling. */
  lemma OwnBidIgnoresAccountCase(account: string, c: Commitment)
    ensures IsOwnBid(Some(account), c) <==> IsOwnBid(Some(Lower(account)), c)
  {
    LowerIdempotent(account);
  }

  function OwnBidTest(account: Option<string>): Commitment -> bool
  {
    c => IsOwnBid(account, c)
  }

  /** The `data` memo: with "own bids only" on, the commitments whose address
      matches the account case-insensitively, in their original order. */
  function TableData(commitments: seq<Commitment>, ownBidsOnly: bool, account: Option<string>): (r: seq<Commitment>)
    ensures !ownBidsOnly ==> r == commitments
    ensures ownBidsOnly && account.None? ==> r == []
    ensures ownBidsOnly ==> Seqs.IsSubsequence(r, commitments)
    ensures ownBidsOnly ==> forall i :: 0 <= i < |r| ==> IsOwnBid(account, r[i])
    ensures ownBidsOnly ==> |r| == Seqs.Count(commitments, OwnBidTest(account))
    ensures ownBidsOnly ==> forall c :: c in commitments && IsOwnBid(account, c) ==> c in r
  {
    if ownBidsOnly then
      Seqs.FilterIsSubsequence(commitments, OwnBidTest(account));
      var r := Seqs.Filter(commitments, OwnBidTest(account));
      assert |r| > 0 ==> IsOwnBid(account, r[0]);
      r
    else commitments
  }

  /** Turning the filter on twice is the same as once. */
  lemma TableDataIdempotent(commitments: seq<Commitment>, account: Option<string>)
    ensures TableData(TableData(commitments, true, account), true, account)
            == TableData(commitments, true, account)
  {
    Seqs.FilterIdempotent(commitments, OwnBidTest(account));
  }

  /** The filtered data is the ONLY order-preserving selection of own bids that
      misses none of them. */
  lemma TableDataIsTheOwnBidSubsequence(commitments: seq<Commitment>, account: Option<string>, s: seq<Commitment>)
    requires Seqs.IsSubsequence(s, commitments)
    requires forall i :: 0 <= i < |s| ==> IsOwnBid(account, s[i])
    requires |s| == Seqs.Count(commitments, OwnBidTest(account))
    ensures s == TableData(commitments, true, account)
  {
    Seqs.FilterUnique(s, commitments, OwnBidTest(account));
  }

  /** The raw addresses of the commitments. */
  function Addresses(commitments: seq<Commitment>): seq<string>
  {
    seq(|commitments|, i requires 0 <= i < |commitments| => commitments[i].address)
  }

  /** `[...new Set(commitments.map((el) => el.address))].length`: the number of
      distinct raw addresses, compared case-sensitively. */
  function ParticipantCount(commitments: seq<Commitment>): (r: nat)
    ensures r == |set i | 0 <= i < |commitments| :: commitments[i].address|
    ensures r <= |commitments|
    ensures |commitments| > 0 ==> r >= 1
  {
    var addresses := Addresses(commitments);
    Seqs.DistinctLength(addresses);
    var indexed := set i | 0 <= i < |commitments| :: commitments[i].address;
    assert Seqs.Elements(addresses) == indexed by {
      forall a | a in Seqs.Elements(addresses)
        ensures a in indexed
      {
        var i :| 0 <= i < |addresses| && addresses[i] == a;
      }
      forall a | a in indexed
        ensures a in Seqs.Elements(addresses)
      {
        var i :| 0 <= i < |commitments| && commitments[i].address == a;
        assert addresses[i] == a;
      }
    }
    assert |commitments| > 0 ==> addresses[0] in Seqs.Distinct(addresses);
    |Seqs.Distinct(addresses)|
  }

  /** The participant count is case-sensitive while the own-bid filter is not:
      two commitments whose addresses are different spellings of the connected
      account count as two participants, and both stay in the filtered table. */
  lemma ParticipantsCaseSensitive(commitments: seq<Commitment>, account: string, i: nat, j: nat)
    requires i < |commitments| && j < |commitments|
    requires commitments[i].address != commitments[j].address
    requires Lower(commitments[i].address) == Lower(account)
    requires Lower(commitments[j].address) == Lower(account)
    ensures commitments[i] in TableData(commitments, true, Some(account))
    ensures commitments[j] in TableData(commitments, true, Some(account))
    ensures ParticipantCount(commitments) >= 2
  {
    var indexed := set k | 0 <= k < |commitments| :: commitments[k].address;
    var pair := {commitments[i].address, commitments[j].address};
    assert pair <= indexed;
    assert |pair| == 2;
    SubsetCardinality(pair, indexed);
  }

  /** A subset is no larger than its superset. */
  lemma {:induction false} SubsetCardinality<T>(small: set<T>, big: set<T>)
    requires small <= big
    ensures |small| <= |big|
    decreases |small|
  {
    if small != {} {
      var x :| x in small;
      SubsetCardinality(small - {x}, big - {x});
    }
  }

  /** `Math.ceil(length / pageSize)`: the fewest pages of `pageSize` rows that
      hold `length` rows. */
  function TotalPages(length: nat, pageSize: nat): (r: nat)
    requires pageSize > 0
    ensures r * pageSize >= length
    ensures r > 0 ==> (r - 1) * pageSize < length
    ensures r == 0 <==> length == 0
  {
    var q := length / pageSize;
    var rem := length % pageSize;
    assert length == q * pageSize + rem;
    if rem == 0 then q
    else
      assert (q + 1) * pageSize == q * pageSize + pageSize;
      q + 1
  }

  /** What the tab shows, before the user changes pages. */
  datatype BidsView = BidsView(participants: nat, data: seq<Commitment>, config: TableConfig, totalPages: nat)

  /** `AuctionBidsTab` for one render: participants are counted over all
      commitments, the table shows the (possibly filtered) data, and the page
      count uses the table's page size, which stays at its initial 10. */
  function ViewBids(commitments: seq<Commitment>, ownBidsOnly: bool, account: Option<string>,
                    chainId: Option<int>): (v: BidsView)
    ensures v.participants == |set i | 0 <= i < |commitments| :: commitments[i].address|
    ensures v.data == TableData(commitments, ownBidsOnly, account)
    ensures v.config.data == v.data
    ensures v.config.pageSize == 10
    ensures v.totalPages * 10 >= |v.data| && (v.totalPages > 0 ==> (v.totalPages - 1) * 10 < |v.data|)
    ensures v.totalPages == 0 <==> |v.data| == 0
  {
    var data := TableData(commitments, ownBidsOnly, account);
    var config := CommitmentTableConfig(Some(data), chainId);
    BidsView(ParticipantCount(commitments), data, config, TotalPages(|data|, config.pageSize))
  }

  /** The participant count does not depend on the "own bids only" switch or
      on the connected account. */
  lemma ParticipantsIgnoreFilter(commitments: seq<Commitment>, on1: bool, account1: Option<string>,
                                 on2: bool, account2: Option<string>, chainId: Option<int>)
    ensures ViewBids(commitments, on1, account1, chainId).participants
            == ViewBids(commitments, on2, account2, chainId).participants
  {
  }
}
