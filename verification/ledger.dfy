/**
 * `salvar_na_planilha`: storing one record in the client's worksheet of
 * the spreadsheet. The spreadsheet is an object whose worksheets (a title
 * and its rows each) change as the routine runs; every remote call may
 * return or raise, and which it does is given by a `Faults` record.
 */
module Ledger {
  import opened Resolver

  /** A worksheet row: its cells, left to right. */
  type Row = seq<string>

  /**
   * How one call to the spreadsheet service ends: it returns, it raises
   * `gspread.exceptions.APIError`, or it raises any other exception.
   */
  datatype Outcome = Returned | ApiError | OtherError

  /**
   * How each remote call of one save ends, if it is made: listing the
   * worksheets, opening one by title (only one of the two openings runs in
   * a save), creating one, formatting its columns, appending the header,
   * formatting the header and appending the data row.
   */
  datatype Faults = Faults(listing: Outcome, open: Outcome, create: Outcome, formatBody: Outcome,
                           header: Outcome, formatHeader: Outcome, append: Outcome)

  /** Every call returns. */
  const NoFaults := Faults(Returned, Returned, Returned, Returned, Returned, Returned, Returned)

  /** The first row of every worksheet the bot creates. */
  const Header: Row := ["Data", "Informação", "Tipo de Mídia"]

  /** The row stored for one record: when, what, and from which kind of message. */
  function DataRow(timestamp: string, info: string, media: string): Row {
    [timestamp, info, media]
  }

  /**
   * What one save does: the worksheet it writes to, whether it creates
   * that worksheet, whether the header ends up in it, and whether the data
   * row is appended (which is also what the save reports).
   */
  datatype Plan = Plan(title: string, creates: bool, header: bool, appends: bool)

  /**
   * The first of the three steps after creating a worksheet (format the
   * columns, append the header, format the header) that does not return,
   * or `Returned` when all three do.
   */
  function CreationSteps(env: Faults): Outcome {
    if env.formatBody != Returned then env.formatBody
    else if env.header != Returned then env.header
    else env.formatHeader
  }

  /**
   * The decisions of `salvar_na_planilha`, given the worksheet titles
   * before the save, whether the connection succeeded and how each remote
   * call ends. An existing worksheet is written to only after it is
   * opened; a worksheet whose creation (or whose formatting or header)
   * raised `APIError` is opened by title instead; any other exception, or a
   * failed opening, ends the save without the data row.
   */
  function SavePlan(name: string, titles: seq<string>, scorer: Scorer, connected: bool, env: Faults): Plan
  {
    var res := Resolve(name, Candidates(titles), scorer, ConfidenceThreshold);
    if !connected || env.listing != Returned then Plan(res.title, false, false, false)
    else if !res.isNew then Plan(res.title, false, false, env.open == Returned && env.append == Returned)
    else NewSheetPlan(res.title, titles, env)
  }

  /**
   * The part of `SavePlan` for a client with no confident match: create a
   * worksheet `t`, or fall back to opening `t` when creating it, or
   * preparing it, raised `APIError`.
   */
  function NewSheetPlan(t: string, titles: seq<string>, env: Faults): Plan {
    var opensAndAppends := env.open == Returned && env.append == Returned;
    if env.create == OtherError then Plan(t, false, false, false)
    else if env.create == ApiError || t in titles then Plan(t, false, false, t in titles && opensAndAppends)
    else
      var header := env.formatBody == Returned && env.header == Returned;
      var appends := match CreationSteps(env)
                     case Returned => env.append == Returned
                     case ApiError => opensAndAppends
                     case OtherError => false;
      Plan(t, true, header, appends)
  }

  /**
   * The rows of every worksheet after a save that followed plan `p`: every
   * other worksheet keeps its rows; the planned one keeps its rows (or
   * starts with the header, or with nothing, when the save created it) and
   * gains the data row at the end, exactly once, when the save appends it.
   */
  function AfterSave(rows: map<string, seq<Row>>, p: Plan, data: Row): (r: map<string, seq<Row>>)
    ensures forall k :: k != p.title ==> (k in r <==> k in rows) && (k in rows ==> r[k] == rows[k])
    ensures p.creates || p.title in rows ==> p.title in r
    ensures !p.creates && p.title in rows ==>
              && |r[p.title]| == |rows[p.title]| + (if p.appends then 1 else 0)
              && r[p.title][..|rows[p.title]|] == rows[p.title]
    ensures p.creates ==>
              && |r[p.title]| == (if p.header then 1 else 0) + (if p.appends then 1 else 0)
              && (p.header ==> r[p.title][0] == Header)
    ensures p.appends ==> p.title in r && r[p.title] != [] && r[p.title][|r[p.title]| - 1] == data
    ensures !p.creates && !p.appends ==> r == rows
  {
    var before := if p.creates then (if p.header then [Header] else [])
                  else if p.title in rows then rows[p.title] else [];
    if p.appends then
      assert (before + [data])[..|before|] == before;
      rows[p.title := before + [data]]
    else if p.creates then rows[p.title := before]
    else rows
  }

  /** Every candidate is one of the titles. */
  lemma CandidatesInTitles(titles: seq<string>)
    ensures forall k :: 0 <= k < |Candidates(titles)| ==> Candidates(titles)[k] in titles
  {
    if DefaultSheet in titles {
      var i := FirstIndex(titles, DefaultSheet);
      RemoveFirstShape(titles, DefaultSheet);
      forall k | 0 <= k < |Candidates(titles)| ensures Candidates(titles)[k] in titles {
        if k < i {
          assert Candidates(titles)[k] == titles[k];
        } else {
          assert Candidates(titles)[k] == titles[k + 1];
        }
      }
    }
  }

  /** A worksheet chosen by fuzzy matching is always one that exists. */
  lemma ResolvedTitleExists(name: string, titles: seq<string>, scorer: Scorer, threshold: int)
    requires !Resolve(name, Candidates(titles), scorer, threshold).isNew
    ensures Resolve(name, Candidates(titles), scorer, threshold).title in titles
  {
    CandidatesInTitles(titles);
  }

  /** Without a connection, or when listing the worksheets fails, nothing is written. */
  lemma SaveNeedsConnection(name: string, titles: seq<string>, scorer: Scorer, connected: bool, env: Faults)
    requires !connected || env.listing != Returned
    ensures var p := SavePlan(name, titles, scorer, connected, env);
            !p.creates && !p.header && !p.appends
  {
  }

  /**
   * A worksheet is created only for a client that no candidate matches
   * with enough confidence and that is not a title yet, and it is named
   * exactly as the client was given.
   */
  lemma CreatesOnlyUnknownNames(name: string, titles: seq<string>, scorer: Scorer, connected: bool, env: Faults)
    ensures var p := SavePlan(name, titles, scorer, connected, env);
            p.creates ==> p.title == name && name !in titles
                          && AllBelow(name, Candidates(titles), scorer, ConfidenceThreshold)
  {
  }

  /** The header is written only into a worksheet this save created. */
  lemma HeaderOnlyOnCreation(name: string, titles: seq<string>, scorer: Scorer, connected: bool, env: Faults)
    ensures var p := SavePlan(name, titles, scorer, connected, env);
            p.header ==> p.creates
  {
  }

  /**
   * A save that writes without creating writes into a worksheet that
   * already exists: the reused fuzzy match, or the client's own title
   * when creating it raised `APIError`.
   */
  lemma AppendsToExistingOrCreated(name: string, titles: seq<string>, scorer: Scorer, connected: bool, env: Faults)
    ensures var p := SavePlan(name, titles, scorer, connected, env);
            p.appends && !p.creates ==> p.title in titles
  {
    var res := Resolve(name, Candidates(titles), scorer, ConfidenceThreshold);
    if !res.isNew {
      ResolvedTitleExists(name, titles, scorer, ConfidenceThreshold);
    }
  }

  /**
   * When every remote call returns, the record is stored: in the reused
   * worksheet, or in a new worksheet that also gets the header.
   */
  lemma CleanSaveStores(name: string, titles: seq<string>, scorer: Scorer)
    ensures var p := SavePlan(name, titles, scorer, true, NoFaults);
            var res := Resolve(name, Candidates(titles), scorer, ConfidenceThreshold);
            && p.appends && p.title == res.title
            && (p.creates <==> res.isNew && name !in titles)
            && p.header == p.creates
  {
  }

  /**
   * A client that no candidate matches but whose name is already a title
   * (the default `Página1`, say) is not given a second worksheet: creating
   * it raises `APIError` and the record goes to the existing one.
   */
  lemma TakenNameFallsBack(name: string, titles: seq<string>, scorer: Scorer, env: Faults)
    requires env.listing == Returned && name in titles
    requires AllBelow(name, Candidates(titles), scorer, ConfidenceThreshold)
    ensures var p := SavePlan(name, titles, scorer, true, env);
            && !p.creates && p.title == name
            && (p.appends <==> env.create != OtherError && env.open == Returned && env.append == Returned)
  {
  }

  /**
   * The spreadsheet: its worksheet titles in order, and each worksheet's
   * rows. The routine always works on an existing spreadsheet, so there is
   * no constructor; every method asks for `Valid()` instead.
   */
  class Spreadsheet {
    var titles: seq<string>
    var rows: map<string, seq<Row>>

    /** Titles are unique and every worksheet has rows. */
    ghost predicate Valid()
      reads this
    {
      Distinct(titles) && forall k :: k in rows <==> k in titles
    }

    /** `worksheets()`, reduced to the titles. */
    method ListTitles(fault: Outcome) returns (status: Outcome, listed: seq<string>)
      ensures status == fault
      ensures status == Returned ==> listed == titles
    {
      status := fault;
      listed := if fault == Returned then titles else [];
    }

    /**
     * `worksheet(title)`: opens a worksheet by title; a missing title
     * raises `WorksheetNotFound`, which is not an `APIError`.
     */
    method OpenWorksheet(title: string, fault: Outcome) returns (status: Outcome)
      ensures status == Returned <==> fault == Returned && title in rows
      ensures status == ApiError <==> fault == ApiError
    {
      if fault != Returned {
        status := fault;
      } else if title in rows {
        status := Returned;
      } else {
        status := OtherError;
      }
    }

    /**
     * `add_worksheet(title)`: appends an empty worksheet; the service
     * refuses a title that is already taken with an `APIError`.
     */
    method AddWorksheet(title: string, fault: Outcome) returns (status: Outcome)
      requires Valid()
      modifies this
      ensures Valid()
      ensures status == if fault != Returned then fault
                        else if title in old(rows) then ApiError else Returned
      ensures status == Returned ==> titles == old(titles) + [title] && rows == old(rows)[title := []]
      ensures status != Returned ==> titles == old(titles) && rows == old(rows)
    {
      if fault != Returned {
        status := fault;
      } else if title in rows {
        status := ApiError;
      } else {
        titles := titles + [title];
        rows := rows[title := []];
        status := Returned;
      }
    }

    /** `format(range, style)`: cell styles are not part of this model, only whether the call raises. */
    method Format(title: string, fault: Outcome) returns (status: Outcome)
      requires title in rows
      ensures status == fault
    {
      status := fault;
    }

    /** `append_row(row)`: adds `row` after the last row of the worksheet. */
    method AppendRow(title: string, row: Row, fault: Outcome) returns (status: Outcome)
      requires Valid() && title in rows
      modifies this
      ensures Valid() && titles == old(titles) && status == fault
      ensures rows == if fault == Returned then old(rows)[title := old(rows)[title] + [row]] else old(rows)
    {
      status := fault;
      if fault == Returned {
        rows := rows[title := rows[title] + [row]];
      }
    }

    /**
     * The creation block: create the worksheet, format its columns, append
     * and format the header; on `APIError` open the worksheet by title
     * instead. `Returned` means a worksheet named `title` is open for the
     * data row.
     */
    method CreateOrOpen(title: string, env: Faults) returns (status: Outcome)
      requires Valid()
      modifies this
      ensures Valid()
      ensures var created := env.create == Returned && title !in old(rows);
              titles == old(titles) + (if created then [title] else [])
      ensures var created := env.create == Returned && title !in old(rows);
              var header := created && env.formatBody == Returned && env.header == Returned;
              rows == if created then old(rows)[title := if header then [Header] else []] else old(rows)
      ensures var created := env.create == Returned && title !in old(rows);
              var steps := if created then CreationSteps(env)
                           else if env.create == Returned then ApiError else env.create;
              status == if steps != ApiError then steps
                        else if env.open == Returned && title in rows then Returned
                        else if env.open == ApiError then ApiError else OtherError
    {
      status := AddWorksheet(title, env.create);
      if status == Returned {
        status := Format(title, env.formatBody);
        if status == Returned {
          status := AppendRow(title, Header, env.header);
          assert [] + [Header] == [Header];
          if status == Returned {
            status := Format(title, env.formatHeader);
          }
        }
      }
      if status == ApiError {
        status := OpenWorksheet(title, env.open);
      }
    }

    /** A confidently matched client: open the reused worksheet and append the data row. */
    method WriteExisting(title: string, data: Row, env: Faults) returns (ok: bool)
      requires Valid() && title in rows
      modifies this
      ensures Valid() && titles == old(titles)
      ensures ok == (env.open == Returned && env.append == Returned)
      ensures rows == if ok then old(rows)[title := old(rows)[title] + [data]] else old(rows)
    {
      var status := OpenWorksheet(title, env.open);
      if status != Returned {
        return false;
      }
      status := AppendRow(title, data, env.append);
      ok := status == Returned;
    }

    /** A new client: the creation block, then the data row. */
    method WriteNew(title: string, data: Row, env: Faults) returns (ok: bool)
      requires Valid()
      modifies this
      ensures Valid()
      ensures var p := NewSheetPlan(title, old(titles), env);
              && ok == p.appends
              && titles == old(titles) + (if p.creates then [p.title] else [])
              && rows == AfterSave(old(rows), p, data)
    {
      var status := CreateOrOpen(title, env);
      if status != Returned {
        return false;
      }
      status := AppendRow(title, data, env.append);
      ok := status == Returned;
    }

    /**
     * `salvar_na_planilha(name, info, media)`, with the connection's
     * success, the timestamp, the scorer and the calls' outcomes as
     * parameters. Follows `SavePlan`: only the planned worksheet may gain a
     * title and rows, every other worksheet is left as it was.
     */
    method SaveRecord(name: string, info: string, media: string, timestamp: string,
                      connected: bool, scorer: Scorer, env: Faults) returns (ok: bool)
      requires Valid()
      modifies this
      ensures Valid()
      ensures var p := SavePlan(name, old(titles), scorer, connected, env);
              && ok == p.appends
              && titles == old(titles) + (if p.creates then [p.title] else [])
              && rows == AfterSave(old(rows), p, DataRow(timestamp, info, media))
    {
      if !connected {
        return false;
      }
      var status, listed := ListTitles(env.listing);
      if status != Returned {
        return false;
      }
      var res := Resolve(name, Candidates(listed), scorer, ConfidenceThreshold);
      if !res.isNew {
        ResolvedTitleExists(name, listed, scorer, ConfidenceThreshold);
        ok := WriteExisting(res.title, DataRow(timestamp, info, media), env);
      } else {
        ok := WriteNew(res.title, DataRow(timestamp, info, media), env);
      }
    }
  }
}
