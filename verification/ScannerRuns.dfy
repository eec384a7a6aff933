/** Two runs after which the scanner's screen and the server count differently, one each way. */
module ScannerRuns {
  import opened Wrappers
  import opened ScanLog
  import opened ScanQueue
  import opened Reconciliation
  import opened ScreenCount

  const SESSION := Session(0, 0, [7])

  const ITEM := Item(1, 0, 7, 0)

  const LOGGED := ScanEvent(7, Some(0), Unloading, 5, Some(1))

  // ---------------------------------------------------------------- below

  /** The page and the server after each step of the first run. */
  const SCANNED := System(Page([ITEM], {7}, {ITEM}, Idle, 1000), map[], [], {}, [], map[1 := ITEM], {})
  const POSTED := System(Page([ITEM], {7}, {}, Posting([ITEM], 0), 1000), map[1 := ITEM], [[ITEM]], {}, [],
                         map[1 := ITEM], {ITEM})
  const DELIVERED := POSTED.(delivered := {0}, log := [LOGGED])
  const ACKNOWLEDGED := DELIVERED.(page := Page([ITEM], {7}, {}, Deleting([ITEM]), 1000))
  const FINISHED := DELIVERED.(page := Page([], {7}, {}, Idle, 1000), idb := map[])
  const RELOADED := FINISHED.(page := EMPTY_PAGE)

  lemma Scans()
    ensures Possible(Start([]), SESSION, Scan(7, 1, 1000)) && Step(Start([]), SESSION, Scan(7, 1, 1000)) == SCANNED
  {
    assert 7 in SESSION.pieces;
  }

  lemma Saves()
    ensures Possible(SCANNED, SESSION, Save(ITEM, true)) && Step(SCANNED, SESSION, Save(ITEM, true)) == POSTED
  {
  }

  lemma Delivers()
    ensures Possible(POSTED, SESSION, Deliver(0, 5)) && Step(POSTED, SESSION, Deliver(0, 5)) == DELIVERED
  {
    AppendFirst(EventsOf(POSTED.posts[0], 5));
  }

  lemma AppendFirst(es: seq<ScanEvent>)
    requires |es| == 1
    ensures AppendAll([], es) == es
  {
    assert es[..0] == [] && es == [es[0]];
    assert AppendAll([], es[..0]) == [];
  }

  lemma Acknowledges()
    ensures Possible(DELIVERED, SESSION, Acknowledge) && Step(DELIVERED, SESSION, Acknowledge) == ACKNOWLEDGED
  {
  }

  lemma Finishes()
    ensures Possible(ACKNOWLEDGED, SESSION, Finish) && Step(ACKNOWLEDGED, SESSION, Finish) == FINISHED
  {
    assert ITEM in [ITEM] && NoncesOf([ITEM]) == {1};
  }

  lemma Reloads()
    ensures Possible(FINISHED, SESSION, Reload([])) && Step(FINISHED, SESSION, Reload([])) == RELOADED
  {
  }

  /** One piece is scanned, posted, acknowledged and cleared, and then the page is reloaded. */
  function Events(): seq<Event> {
    [Scan(7, 1, 1000)] + ([Save(ITEM, true)] + ([Deliver(0, 5)] + ([Acknowledge] + ([Finish] + ([Reload([])] + [])))))
  }

  lemma Story()
    ensures PossibleRun(Start([]), SESSION, Events()) && Run(Start([]), SESSION, Events()) == RELOADED
  {
    Scans();
    Saves();
    Delivers();
    Acknowledges();
    Finishes();
    Reloads();
    RunCons(FINISHED, SESSION, Reload([]), RELOADED, []);
    RunCons(ACKNOWLEDGED, SESSION, Finish, FINISHED, [Reload([])] + []);
    RunCons(DELIVERED, SESSION, Acknowledge, ACKNOWLEDGED, [Finish] + ([Reload([])] + []));
    RunCons(POSTED, SESSION, Deliver(0, 5), DELIVERED, [Acknowledge] + ([Finish] + ([Reload([])] + [])));
    RunCons(SCANNED, SESSION, Save(ITEM, true), POSTED, [Deliver(0, 5)] + ([Acknowledge] + ([Finish] + ([Reload([])] + []))));
    RunCons(Start([]), SESSION, Scan(7, 1, 1000), SCANNED,
            [Save(ITEM, true)] + ([Deliver(0, 5)] + ([Acknowledge] + ([Finish] + ([Reload([])] + [])))));
  }

  /** The reloaded page has an empty queue and counts nothing; the server has the piece. */
  lemma ReloadForgetsDelivered()
    ensures PossibleRun(Start([]), SESSION, Events())
    ensures var x := Run(Start([]), SESSION, Events());
            x.page.queue == [] && x.page.seen == {} && ReceivedPieces(x, SESSION) == {7}
  {
    Story();
    assert LOGGED in ByManifest(RELOADED.log, 0, Unloading);
    assert 7 in SESSION.pieces;
  }

  // ---------------------------------------------------------------- above

  const SAVED := SCANNED.(page := Page([ITEM], {7}, {}, Idle, 1000), idb := map[1 := ITEM], saved := {ITEM})

  /** The one piece is scanned and saved, and the flush of the finish button finds the phone offline. */
  function OfflineEvents(): seq<Event> {
    [Scan(7, 1, 1000)] + ([Save(ITEM, false)] + ([Flush(false)] + []))
  }

  lemma OfflineStory()
    ensures PossibleRun(Start([]), SESSION, OfflineEvents()) && Run(Start([]), SESSION, OfflineEvents()) == SAVED
  {
    Scans();
    assert Possible(SCANNED, SESSION, Save(ITEM, false)) && Step(SCANNED, SESSION, Save(ITEM, false)) == SAVED;
    assert Step(SAVED, SESSION, Flush(false)) == SAVED;
    RunCons(SAVED, SESSION, Flush(false), SAVED, []);
    RunCons(SCANNED, SESSION, Save(ITEM, false), SAVED, [Flush(false)] + []);
    RunCons(Start([]), SESSION, Scan(7, 1, 1000), SCANNED, [Save(ITEM, false)] + ([Flush(false)] + []));
  }

  /** The screen says complete and the link carries the full count, while the count that will be
      signed is zero. */
  lemma CompleteScreenCanBeShort()
    ensures PossibleRun(Start([]), SESSION, OfflineEvents())
    ensures var x := Run(Start([]), SESSION, OfflineEvents());
            && |x.page.seen| == |SESSION.pieces|
            && ReconciledNow(x, SESSION).scanned == 0 && ReconciledNow(x, SESSION).missing == 1
  {
    OfflineStory();
    assert ByManifest([], 0, Unloading) == [];
    SignedIsReceived(SAVED, SESSION);
    ScannedCountBounded(SESSION.pieces, []);
  }
}
