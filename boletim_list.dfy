/**
 * The report list (`BoletimList`): the signed-in user's reports, newest first, narrowed
 * by a case-insensitive search over number, client and requester.
 */
module BoletimList {
  import opened Wrappers
  import opened Text
  import opened Types
  import opened Seqs
  import opened Storage
  import opened LocalDatabase
  import opened AuthContext

  // ---------------------------------------------------------------------------
  // Search
  // ---------------------------------------------------------------------------

  /** The report's number, client or requester contains the term, ignoring case. */
  predicate MatchesSearch(b: Boletim, term: string)
  {
    Contains(Lower(b.numero), Lower(term)) ||
    Contains(Lower(b.cliente), Lower(term)) ||
    Contains(Lower(b.solicitante), Lower(term))
  }

  function Matches(term: string): Boletim -> bool
  {
    b => MatchesSearch(b, term)
  }

  /** The reports the list shows for a search term, in the loaded order. */
  function FilterBoletins(bs: seq<Boletim>, term: string): seq<Boletim>
  {
    Filter(bs, Matches(term))
  }

  /** Every string contains the empty string. */
  lemma ContainsEmpty(hay: string)
    ensures Contains(hay, "")
  {
  }

  /** A string containing `x + y` contains `x`. */
  lemma {:induction false} ContainsPrefix(hay: string, x: string, y: string)
    requires Contains(hay, x + y)
    ensures Contains(hay, x)
    decreases |hay|
  {
    if !(x + y <= hay) {
      ContainsPrefix(hay[1..], x, y);
    } else {
      assert hay[..|x|] == (x + y)[..|x|] == x;
    }
  }

  lemma LowerAppend(x: string, y: string)
    ensures Lower(x + y) == Lower(x) + Lower(y)
  {
  }

  /** Lower-casing twice is lower-casing once. */
  lemma LowerIdempotent(s: string)
    ensures Lower(Lower(s)) == Lower(s)
  {
  }

  /**
   * The search shows exactly the loaded reports that match, in their loaded order;
   * an empty term shows them all.
   */
  lemma {:induction false} SearchFacts(bs: seq<Boletim>, term: string)
    ensures forall b :: b in FilterBoletins(bs, term) <==> b in bs && MatchesSearch(b, term)
    ensures IsSubsequence(FilterBoletins(bs, term), bs)
    ensures term == "" ==> FilterBoletins(bs, term) == bs
  {
    FilterIsSubsequence(bs, Matches(term));
    if term == "" {
      forall i | 0 <= i < |bs| ensures Matches(term)(bs[i]) {
        ContainsEmpty(Lower(bs[i].numero));
      }
      FilterAll(bs, Matches(term));
    }
  }

  /** Upper- and lower-case terms find the same reports. */
  lemma {:induction false} SearchIgnoresCase(bs: seq<Boletim>, term: string)
    ensures FilterBoletins(bs, Lower(term)) == FilterBoletins(bs, term)
    decreases |bs|
  {
    LowerIdempotent(term);
    if bs != [] {
      SearchIgnoresCase(bs[1..], term);
      assert Matches(Lower(term))(bs[0]) == Matches(term)(bs[0]);
    }
  }

  /** Typing more characters never brings a report back. */
  lemma {:induction false} SearchNarrows(bs: seq<Boletim>, term: string, more: string)
    ensures forall b :: b in FilterBoletins(bs, term + more) ==> b in FilterBoletins(bs, term)
  {
    forall b | b in FilterBoletins(bs, term + more)
      ensures b in FilterBoletins(bs, term)
    {
      LowerAppend(term, more);
      if Contains(Lower(b.numero), Lower(term + more)) {
        ContainsPrefix(Lower(b.numero), Lower(term), Lower(more));
      } else if Contains(Lower(b.cliente), Lower(term + more)) {
        ContainsPrefix(Lower(b.cliente), Lower(term), Lower(more));
      } else {
        ContainsPrefix(Lower(b.solicitante), Lower(term), Lower(more));
      }
    }
  }

  // ---------------------------------------------------------------------------
  // What the list says under the table
  // ---------------------------------------------------------------------------

  /**
   * Below the table: with no report to show, a title, a hint and whether the
   * "create your first report" button appears; otherwise the count line.
   */
  datatype ListStatus =
    | EmptyState(title: string, hint: string, offersCreate: bool)
    | CountLine(text: string)

  function StatusFor(filtered: seq<Boletim>, term: string): (r: ListStatus)
    ensures r.EmptyState? <==> filtered == []
    ensures r.EmptyState? ==> (r.offersCreate <==> term == "")
    ensures r.CountLine? ==> NatToString(|filtered|) <= r.text
  {
    if |filtered| == 0 then
      if term != "" then EmptyState("Nenhum boletim encontrado", "Tente ajustar os termos de busca", false)
      else EmptyState("Nenhum boletim cadastrado", "Comece criando seu primeiro boletim de campo", true)
    else
      CountLine(NatToString(|filtered|) + " boletim(s) encontrado(s)"
                + (if term != "" then " para \"" + term + "\"" else ""))
  }

  // ---------------------------------------------------------------------------
  // The component's state
  // ---------------------------------------------------------------------------

  class BoletimListView {
    var boletins: seq<Boletim>
    var searchTerm: string
    var filteredBoletins: seq<Boletim>
    const auth: AuthProvider

    /** The filtered list is recomputed whenever the reports or the term change. */
    predicate Valid()
      reads this
    {
      filteredBoletins == FilterBoletins(boletins, searchTerm)
    }

    constructor (auth: AuthProvider)
      ensures this.auth == auth && boletins == [] && searchTerm == "" && Valid()
    {
      this.auth := auth;
      boletins := [];
      searchTerm := "";
      filteredBoletins := [];
    }

    /** `loadBoletins`: the user's reports, newest first; without a user nothing loads. */
    method LoadBoletins()
      requires Valid()
      modifies this`boletins, this`filteredBoletins
      ensures Valid()
      ensures boletins == if auth.user.Some? then ListByOwner(BoletinsIn(auth.db.storage.items), auth.user.value.id)
                          else old(boletins)
      ensures auth.user.Some? ==> forall b :: b in boletins ==> b.userId == auth.user.value.id
    {
      if auth.user.None? {
        return;
      }
      var userBoletins := auth.db.GetBoletinsByUserId(auth.user.value.id);
      boletins := userBoletins;
      filteredBoletins := FilterBoletins(boletins, searchTerm);
    }

    /** Typing in the search box. */
    method SetSearchTerm(term: string)
      requires Valid()
      modifies this`searchTerm, this`filteredBoletins
      ensures Valid() && searchTerm == term
    {
      searchTerm := term;
      filteredBoletins := FilterBoletins(boletins, searchTerm);
    }

    /**
     * `deleteBoletim`: only after the user confirms; the list then reloads, even when
     * the write was refused. After a confirmed delete that was written, no report with
     * that id is listed.
     */
    method DeleteBoletim(id: string, confirmed: bool)
      requires Valid()
      modifies this`boletins, this`filteredBoletins, auth.db.storage`items
      ensures Valid()
      ensures auth.db.storage.items ==
        if confirmed && !auth.db.storage.full
        then old(auth.db.storage.items)[BoletinsKey := BoletinsBlob(RemoveId(BoletinsIn(old(auth.db.storage.items)), id))]
        else old(auth.db.storage.items)
      ensures boletins == if confirmed && auth.user.Some?
                          then ListByOwner(BoletinsIn(auth.db.storage.items), auth.user.value.id)
                          else old(boletins)
      ensures confirmed && !auth.db.storage.full && auth.user.Some? ==> forall b :: b in boletins ==> b.id != id
    {
      if !confirmed {
        return;
      }
      var _ := auth.db.DeleteBoletim(id);
      LoadBoletins();
      if !auth.db.storage.full && auth.user.Some? {
        var remaining := RemoveId(BoletinsIn(old(auth.db.storage.items)), id);
        assert BoletinsIn(auth.db.storage.items) == remaining;
        RemoveIdFacts(BoletinsIn(old(auth.db.storage.items)), id);
        ListByOwnerFacts(remaining, auth.user.value.id);
      }
    }
  }
}
