/** `IPTracker` of netutil/iptrack.go: predictions from what other hosts say, with garbage collection.
    The clock is a parameter of each call and never runs backwards. */
module IPTracker {
  import opened Slices

  type Host = string

  datatype Statement = Statement(endpoint: string, time: nat)

  /** Everything that was ever recorded, oldest first. */
  datatype Entry = Said(host: Host, st: Statement) | Met(host: Host, at: nat)

  /** The host's last statement in the whole log. */
  function LastSaid(log: seq<Entry>, host: Host): Option<Statement> {
    if log == [] then None
    else
      var e := log[|log| - 1];
      if e.Said? && e.host == host then Some(e.st) else LastSaid(log[..|log| - 1], host)
  }

  /** The last contact with the host in the whole log. */
  function LastMet(log: seq<Entry>, host: Host): Option<nat> {
    if log == [] then None
    else
      var e := log[|log| - 1];
      if e.Met? && e.host == host then Some(e.at) else LastMet(log[..|log| - 1], host)
  }

  /** A new entry replaces the last one of its host and kind. */
  lemma LastAfter(log: seq<Entry>, e: Entry)
    ensures forall h :: LastSaid(log + [e], h) == if e.Said? && e.host == h then Some(e.st) else LastSaid(log, h)
    ensures forall h :: LastMet(log + [e], h) == if e.Met? && e.host == h then Some(e.at) else LastMet(log, h)
  {
    assert (log + [e])[..|log|] == log;
  }

  /** The host's last statement if it falls in the window that ends now. */
  function LiveSaid(log: seq<Entry>, host: Host, now: nat, window: int): Option<Statement> {
    var st := LastSaid(log, host);
    if st.Some? && st.value.time >= now - window then st else None
  }

  function LiveMet(log: seq<Entry>, host: Host, now: nat, window: int): Option<nat> {
    var c := LastMet(log, host);
    if c.Some? && c.value >= now - window then c else None
  }

  /** The host spoke about us without having heard from us before. */
  predicate Unsolicited(log: seq<Entry>, host: Host, now: nat, window: int, contactWindow: int) {
    var st, c := LiveSaid(log, host, now, window), LiveMet(log, host, now, contactWindow);
    st.Some? && (c.None? || c.value > st.value.time)
  }

  function Hosts(log: seq<Entry>): set<Host> {
    set e | e in log :: e.host
  }

  /** The hosts whose live statement names this endpoint. */
  function Votes(log: seq<Entry>, endpoint: string, now: nat, window: int): set<Host> {
    set h | h in Hosts(log) && LiveSaid(log, h, now, window).Some? && LiveSaid(log, h, now, window).value.endpoint == endpoint
  }

  /** Enough votes for a prediction. */
  predicate Qualifies(votes: nat, minStatements: int) {
    votes >= 1 && votes >= minStatements
  }

  /** An endpoint that qualifies and that no endpoint outvotes, or the empty string if none qualifies. */
  ghost predicate IsPrediction(r: string, log: seq<Entry>, now: nat, window: int, minStatements: int) {
    if exists e :: Qualifies(|Votes(log, e, now, window)|, minStatements)
    then
      && Qualifies(|Votes(log, r, now, window)|, minStatements)
      && forall e :: |Votes(log, e, now, window)| <= |Votes(log, r, now, window)|
    else r == ""
  }

  lemma {:induction false} LastSaidHost(log: seq<Entry>, host: Host)
    requires LastSaid(log, host).Some?
    ensures host in Hosts(log)
  {
    var e := log[|log| - 1];
    if !(e.Said? && e.host == host) {
      LastSaidHost(log[..|log| - 1], host);
      var f :| f in log[..|log| - 1] && f.host == host;
      assert f in log;
    } else {
      assert e in log;
    }
  }

  /** When nobody names the empty endpoint, the empty answer means that none qualifies. */
  lemma EmptyMeansNone(r: string, log: seq<Entry>, now: nat, window: int, minStatements: int)
    requires IsPrediction(r, log, now, window, minStatements)
    requires forall e :: e in log && e.Said? ==> e.st.endpoint != ""
    ensures r == "" <==> forall e :: !Qualifies(|Votes(log, e, now, window)|, minStatements)
  {
    if r == "" && Votes(log, "", now, window) != {} {
      var h :| h in Votes(log, "", now, window);
      SaidIsLogged(log, h);
    }
  }

  lemma {:induction false} SaidIsLogged(log: seq<Entry>, host: Host)
    requires LastSaid(log, host).Some?
    ensures Said(host, LastSaid(log, host).value) in log
  {
    var e := log[|log| - 1];
    if !(e.Said? && e.host == host) { SaidIsLogged(log[..|log| - 1], host); }
  }

  /** counts[endpoint] with Go's default of zero. */
  function Tally(counts: map<string, nat>, endpoint: string): nat {
    if endpoint in counts then counts[endpoint] else 0
  }

  /** What a collection keeps. */
  function NewerStatements(m: map<Host, Statement>, cutoff: int): map<Host, Statement> {
    map h | h in m && m[h].time >= cutoff :: m[h]
  }

  function NewerContact(m: map<Host, nat>, cutoff: int): map<Host, nat> {
    map h | h in m && m[h] >= cutoff :: m[h]
  }

  class IPTracker {
    const window: int
    const contactWindow: int
    const minStatements: int
    var statements: map<Host, Statement>
    var contact: map<Host, nat>
    var lastStatementGC: nat
    var lastContactGC: nat
    ghost var log: seq<Entry>
    ghost var clock: nat

    /** A missing statement was never made or was already too old at the last collection. */
    ghost predicate StatementsOk()
      reads this
    {
      && (forall h :: h in statements ==> LastSaid(log, h) == Some(statements[h]))
      && (forall h :: h !in statements && LastSaid(log, h).Some? ==> LastSaid(log, h).value.time < clock - window)
      && (forall h :: h in statements ==> lastStatementGC - (if window > 0 then window else 0) <= statements[h].time <= clock)
      && lastStatementGC <= clock
    }

    ghost predicate ContactOk()
      reads this
    {
      && (forall h :: h in contact ==> LastMet(log, h) == Some(contact[h]))
      && (forall h :: h !in contact && LastMet(log, h).Some? ==> LastMet(log, h).value < clock - contactWindow)
      && (forall h :: h in contact ==> lastContactGC - (if contactWindow > 0 then contactWindow else 0) <= contact[h] <= clock)
      && lastContactGC <= clock
    }

    ghost predicate Valid()
      reads this
    {
      StatementsOk() && ContactOk()
    }

    constructor (window: int, contactWindow: int, minStatements: int)
      ensures Valid() && log == [] && clock == 0
      ensures this.window == window && this.contactWindow == contactWindow && this.minStatements == minStatements
    {
      this.window, this.contactWindow, this.minStatements := window, contactWindow, minStatements;
      statements, contact := map[], map[];
      lastStatementGC, lastContactGC := 0, 0;
      log, clock := [], 0;
    }

    /** Read the clock. */
    ghost method Tick(now: nat)
      requires Valid() && now >= clock
      modifies `clock
      ensures Valid() && clock == now
    {
      clock := now;
    }

    method GcStatements(now: nat)
      requires Valid() && now == clock
      modifies `statements, `lastStatementGC
      ensures Valid() && lastStatementGC == now
      ensures statements == NewerStatements(old(statements), now - window)
    {
      lastStatementGC := now;
      DropStatements(now - window);
    }

    method DropStatements(cutoff: int)
      modifies `statements
      ensures statements == NewerStatements(old(statements), cutoff)
    {
      var todo := statements.Keys;
      while todo != {}
        invariant todo <= old(statements).Keys
        invariant statements == map h | h in old(statements) && (h in todo || old(statements)[h].time >= cutoff) :: old(statements)[h]
        decreases todo
      {
        var host :| host in todo;
        if statements[host].time < cutoff {
          statements := statements - {host};
        }
        todo := todo - {host};
      }
    }

    method GcContact(now: nat)
      requires Valid() && now == clock
      modifies `contact, `lastContactGC
      ensures Valid() && lastContactGC == now
      ensures contact == NewerContact(old(contact), now - contactWindow)
    {
      lastContactGC := now;
      DropContact(now - contactWindow);
    }

    method DropContact(cutoff: int)
      modifies `contact
      ensures contact == NewerContact(old(contact), cutoff)
    {
      var todo := contact.Keys;
      while todo != {}
        invariant todo <= old(contact).Keys
        invariant contact == map h | h in old(contact) && (h in todo || old(contact)[h] >= cutoff) :: old(contact)[h]
        decreases todo
      {
        var host :| host in todo;
        if contact[host] < cutoff {
          contact := contact - {host};
        }
        todo := todo - {host};
      }
    }

    /** Collects at most once per window, so that nothing older than two windows is kept. */
    method AddStatement(host: Host, endpoint: string, now: nat)
      requires Valid() && now >= clock
      modifies this
      ensures Valid() && clock == now
      ensures log == old(log) + [Said(host, Statement(endpoint, now))]
      ensures var due, all := now - old(lastStatementGC) >= window, old(statements)[host := Statement(endpoint, now)];
              && statements == (if due then NewerStatements(all, now - window) else all)
              && lastStatementGC == (if due then now else old(lastStatementGC))
      ensures contact == old(contact) && lastContactGC == old(lastContactGC)
      ensures window > 0 ==> forall h :: h in statements ==> statements[h].time > now - 2 * window
    {
      Tick(now);
      statements := statements[host := Statement(endpoint, now)];
      log := log + [Said(host, Statement(endpoint, now))];
      LastAfter(old(log), Said(host, Statement(endpoint, now)));
      if now - lastStatementGC >= window {
        GcStatements(now);
      }
    }

    method AddContact(host: Host, now: nat)
      requires Valid() && now >= clock
      modifies this
      ensures Valid() && clock == now
      ensures log == old(log) + [Met(host, now)]
      ensures var due, all := now - old(lastContactGC) >= contactWindow, old(contact)[host := now];
              && contact == (if due then NewerContact(all, now - contactWindow) else all)
              && lastContactGC == (if due then now else old(lastContactGC))
      ensures statements == old(statements) && lastStatementGC == old(lastStatementGC)
      ensures contactWindow > 0 ==> forall h :: h in contact ==> contact[h] > now - 2 * contactWindow
    {
      Tick(now);
      contact := contact[host := now];
      log := log + [Met(host, now)];
      LastAfter(old(log), Met(host, now));
      if now - lastContactGC >= contactWindow {
        GcContact(now);
      }
    }

    /** After a collection the maps are the live part of the log. */
    lemma CollectedStatements(h: Host)
      requires Valid()
      requires forall g :: g in statements ==> statements[g].time >= clock - window
      ensures LiveSaid(log, h, clock, window) == if h in statements then Some(statements[h]) else None
    {
    }

    lemma CollectedContact(h: Host)
      requires Valid()
      requires forall g :: g in contact ==> contact[g] >= clock - contactWindow
      ensures LiveMet(log, h, clock, contactWindow) == if h in contact then Some(contact[h]) else None
    {
    }

    /** A host whose statement is not covered by an earlier contact. */
    ghost predicate Uncontacted(h: Host)
      reads this
    {
      h in statements && (h !in contact || contact[h] > statements[h].time)
    }

    /** The loop of the prediction, over the map in any order. */
    method FindUncontacted() returns (r: bool)
      ensures r <==> exists h :: Uncontacted(h)
    {
      var todo := statements.Keys;
      while todo != {}
        invariant todo <= statements.Keys
        invariant forall h :: h in statements && h !in todo ==> !Uncontacted(h)
        decreases todo
      {
        var host :| host in todo;
        if host !in contact || contact[host] > statements[host].time {
          assert Uncontacted(host);
          return true;
        }
        todo := todo - {host};
      }
      return false;
    }

    /** After both collections the maps answer for the whole log. */
    lemma UncontactedIsUnsolicited(h: Host)
      requires Valid()
      requires forall g :: g in statements ==> statements[g].time >= clock - window
      requires forall g :: g in contact ==> contact[g] >= clock - contactWindow
      ensures Uncontacted(h) <==> Unsolicited(log, h, clock, window, contactWindow)
    {
      CollectedStatements(h);
      CollectedContact(h);
    }

    /** Answers as it would from the whole log: collections are invisible. */
    method PredictFullConeNAT(now: nat) returns (r: bool)
      requires Valid() && now >= clock
      modifies this
      ensures Valid() && clock == now && log == old(log)
      ensures r <==> exists host :: Unsolicited(log, host, now, window, contactWindow)
      ensures statements == NewerStatements(old(statements), now - window) && lastStatementGC == now
      ensures contact == NewerContact(old(contact), now - contactWindow) && lastContactGC == now
    {
      Tick(now);
      GcContact(now);
      GcStatements(now);
      r := FindUncontacted();
      forall h ensures Uncontacted(h) <==> Unsolicited(log, h, now, window, contactWindow) {
        UncontactedIsUnsolicited(h);
      }
    }

    /** The hosts counted so far whose statement names this endpoint. */
    ghost function Counted(done: set<Host>, endpoint: string): set<Host>
      reads this
    {
      set h | h in done && h in statements && statements[h].endpoint == endpoint
    }

    /** The leader among the hosts counted so far. */
    ghost predicate Leads(done: set<Host>, maxcount: nat, max: string)
      reads this
    {
      if maxcount == 0
      then max == "" && forall e :: !Qualifies(|Counted(done, e)|, minStatements)
      else
        && maxcount == |Counted(done, max)| && Qualifies(maxcount, minStatements)
        && forall e :: |Counted(done, e)| <= maxcount
    }

    lemma CountOne(done: set<Host>, host: Host, e: string)
      requires host in statements && host !in done
      ensures |Counted(done + {host}, e)| == |Counted(done, e)| + if statements[host].endpoint == e then 1 else 0
    {
      if statements[host].endpoint == e {
        assert Counted(done + {host}, e) == Counted(done, e) + {host};
      } else {
        assert Counted(done + {host}, e) == Counted(done, e);
      }
    }

    /** The counters agree with the hosts counted so far. */
    ghost predicate Tallied(counts: map<string, nat>, done: set<Host>)
      reads this
    {
      forall e :: Tally(counts, e) == |Counted(done, e)|
    }

    lemma TallyStep(counts: map<string, nat>, done: set<Host>, host: Host)
      requires Tallied(counts, done) && host in statements && host !in done
      ensures var e := statements[host].endpoint; Tallied(counts[e := Tally(counts, e) + 1], done + {host})
    {
      forall e ensures |Counted(done + {host}, e)| == |Counted(done, e)| + if statements[host].endpoint == e then 1 else 0 {
        CountOne(done, host, e);
      }
    }

    /** One more host counted, one comparison with the leader. */
    lemma LeadStep(done: set<Host>, host: Host, maxcount: nat, max: string)
      requires Leads(done, maxcount, max) && host in statements && host !in done
      ensures var e := statements[host].endpoint;
              var c := |Counted(done, e)| + 1;
              if c > maxcount && c >= minStatements then Leads(done + {host}, c, e) else Leads(done + {host}, maxcount, max)
    {
      forall e ensures |Counted(done + {host}, e)| == |Counted(done, e)| + if statements[host].endpoint == e then 1 else 0 {
        CountOne(done, host, e);
      }
    }

    lemma VotesAreCounted(e: string)
      requires Valid()
      requires forall g :: g in statements ==> statements[g].time >= clock - window
      ensures Votes(log, e, clock, window) == Counted(statements.Keys, e)
    {
      forall h ensures h in Votes(log, e, clock, window) <==> h in Counted(statements.Keys, e) {
        CollectedStatements(h);
        if LastSaid(log, h).Some? { LastSaidHost(log, h); }
      }
    }

    lemma LeaderIsPrediction(maxcount: nat, max: string)
      requires Valid() && Leads(statements.Keys, maxcount, max)
      requires forall g :: g in statements ==> statements[g].time >= clock - window
      ensures IsPrediction(max, log, clock, window, minStatements)
    {
      forall e ensures Votes(log, e, clock, window) == Counted(statements.Keys, e) {
        VotesAreCounted(e);
      }
    }

    /** The loop of the prediction, over the map in any order. */
    method MostNamed() returns (maxcount: nat, max: string)
      ensures Leads(statements.Keys, maxcount, max)
    {
      var counts: map<string, nat> := map[];
      maxcount, max := 0, "";
      var todo := statements.Keys;
      ghost var done: set<Host> := {};
      assert forall e :: Counted(done, e) == {};
      while todo != {}
        invariant todo <= statements.Keys && done == statements.Keys - todo
        invariant Tallied(counts, done) && Leads(done, maxcount, max)
        decreases todo
      {
        var host :| host in todo;
        var endpoint := statements[host].endpoint;
        LeadStep(done, host, maxcount, max);
        TallyStep(counts, done, host);
        var c := Tally(counts, endpoint) + 1;
        counts := counts[endpoint := c];
        if c > maxcount && c >= minStatements {
          maxcount, max := c, endpoint;
        }
        assert done + {host} == statements.Keys - (todo - {host});
        done, todo := done + {host}, todo - {host};
      }
      assert done == statements.Keys;
    }

    /** In whatever order the map is walked, the answer is a prediction from the whole log. */
    method PredictEndpoint(now: nat) returns (max: string)
      requires Valid() && now >= clock
      modifies this
      ensures Valid() && clock == now && log == old(log)
      ensures IsPrediction(max, log, now, window, minStatements)
      ensures statements == NewerStatements(old(statements), now - window) && lastStatementGC == now
      ensures contact == old(contact) && lastContactGC == old(lastContactGC)
    {
      Tick(now);
      GcStatements(now);
      var maxcount;
      maxcount, max := MostNamed();
      LeaderIsPrediction(maxcount, max);
    }
  }
}
