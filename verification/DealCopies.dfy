/** The deal as the owner of a hand sees it, against the host's buffer of that hand. */
module DealCopies {
  import opened Tiles
  import opened Sorting
  import opened Deal
  import opened Replica

  /** Owner and host are dealt the same sixteen tiles, and both sort them. */
  method DealBoth(host: array<int>, own: array<int>, mj: array<int>, start: nat) returns (point: nat)
    requires host.Length == own.Length == 20 && host != own && host != mj && own != mj && start + 16 <= mj.Length
    modifies host, own
    ensures point == start + 16 && host[..16] == own[..16]
  {
    point := DealHand(host, mj, start);
    var same := DealHand(own, mj, start);
    SortedUnique(host[..16], own[..16]);
  }

  /** The owner carries out the changes it is told. */
  method ApplyChanges(own: array<int>, sent: seq<Change>)
    modifies own
    ensures own[..] == Applied(old(own[..]), sent)
  {
    var i := 0;
    ghost var was := own[..];
    while i < |sent|
      invariant i <= |sent| && own[..] == Applied(was, sent[..i])
    {
      assert sent[..i + 1][..i] == sent[..i];
      if sent[i].position < own.Length {
        own[sent[i].position] := sent[i].tile;
      }
      i := i + 1;
    }
    assert sent[..i] == sent;
  }

  /** The dealer is sent one more tile; while it is a flower another one replaces it on both sides. */
  method ExtraBoth(host: array<int>, own: array<int>, mj: array<int>, start: nat) returns (point: nat)
    requires host.Length == own.Length == 20 && host != own && host != mj && own != mj && start < WALL <= mj.Length
    requires start + 1 + FlowersAhead(mj[..], start + 1, multiset{mj[start]}) <= WALL
    requires host[..16] == own[..16]
    modifies host, own
    ensures host[..17] == own[..17] && !IsFlower(host[16])
  {
    host[16], own[16] := mj[start], mj[start];
    assert host[..17] == host[..16] + [host[16]] && own[..17] == own[..16] + [own[16]];
    ghost var h, o := host[..], own[..];
    assert h[..17] == host[..17] && o[..17] == own[..17];
    var shown: multiset<int>;
    var sent: seq<Change>;
    point, shown, sent := FillSlot(host, mj, start + 1, 16);
    ApplyChanges(own, sent);
    AppliedInFront(h, o, 17, sent);
    assert host[..17] == host[..][..17] && own[..17] == own[..][..17];
  }

  /** The flowers are replaced on both sides. Then the host sorts sixteen tiles, and so does the owner, the
      dealer its seventeen: the copies agree, as the round needs them to. */
  method FillBoth(host: array<int>, own: array<int>, mj: array<int>, start: nat, dealer: bool) returns (point: nat)
    requires host.Length == own.Length == 20 && host != own && host != mj && own != mj && start <= WALL <= mj.Length
    requires start + FlowersAhead(mj[..], start, multiset(host[..16])) <= WALL
    requires if dealer then host[..17] == own[..17] else host[..16] == own[..16]
    modifies host, own
    ensures Agree(Hand(16, own[..]), Hand(16, host[..]), dealer)
  {
    var n := if dealer then 17 else 16;
    ghost var h, o := host[..], own[..];
    assert h[..n] == host[..n] && o[..n] == own[..n];
    var shown: multiset<int>;
    var sent: seq<Change>;
    point, shown, sent := FillHand(host, mj, start);
    ApplyChanges(own, sent);
    AppliedInFront(h, o, n, sent);
    assert own[..n] == Applied(o, sent)[..n];
    BubbleSort(own, n);
    FilledAgree(own[..], host[..], Applied(h, sent), dealer);
  }

  lemma FilledAgree(own: seq<int>, host: seq<int>, filled: seq<int>, dealer: bool)
    requires |own| == |host| == |filled| == 20
    requires multiset(host[..16]) == multiset(filled[..16]) && host[16] == filled[16] && Sorted(host[..16])
    requires var n := if dealer then 17 else 16; multiset(own[..n]) == multiset(filled[..n]) && Sorted(own[..n])
    ensures Agree(Hand(16, own), Hand(16, host), dealer)
  {
    if dealer {
      assert host[..17] == host[..16] + [host[16]] && filled[..17] == filled[..16] + [filled[16]];
    }
  }
}
