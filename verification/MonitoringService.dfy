/** Asset status by hand and by condition monitoring. */
module MonitoringServices {
  import opened Wrappers
  import opened Tables
  import opened Statements
  import opened Transactions
  import opened Telemetry
  import opened Sites
  import opened Store

  class AssetsService {
    const db: Database

    constructor (db: Database)
      ensures this.db == db
    {
      this.db := db;
    }

    /** The database supplies the new row's id; the status column defaults to OPERATIONAL. */
    method Create(asset: Id, typeExists: bool, locationExists: bool) returns (r: Result<AssetStatus>)
      modifies db
      ensures Follows(RunSite(old(db.State()), CreateAsset(asset, typeExists, locationExists)), r,
                      old(db.State()), db.State())
    {
      if !typeExists { return Err(NotFound); }
      if !locationExists { return Err(NotFound); }
      StatusSaved(db.Rows(), asset, None, Operational);
      hide Overlay;
      if asset in db.assets { return Err(Conflict); }
      db.assets := db.assets[asset := Operational];
      db.audit := db.audit + [AssetAudit(asset, None, Operational)];
      return Ok(Operational);
    }

    method UpdateStatus(asset: Id, status: AssetStatus) returns (r: Result<AssetStatus>)
      modifies db
      ensures Follows(StatusUpdated(old(db.State()), asset, status), r, old(db.State()), db.State())
      ensures r.Ok? ==> r.value == status && db.assets[asset] == status
    {
      if asset !in db.assets { return Err(NotFound); }
      var before := db.assets[asset];
      if before == status { return Ok(status); }
      StatusSaved(db.Rows(), asset, Some(before), status);
      hide Overlay;
      db.assets := db.assets[asset := status];
      db.audit := db.audit + [AssetAudit(asset, Some(before), status)];
      db.history := db.history + [HistoryRow(asset, before, status, ByHand)];
      return Ok(status);
    }
  }

  class ConditionMonitoringService {
    const db: Database

    constructor (db: Database)
      ensures this.db == db
    {
      this.db := db;
    }

    /** One evaluation without interference. `ingested` holds the asset's readings, oldest first. */
    method EvaluateAsset(asset: Id, ingested: seq<Reading>, order: Id) returns (r: Result<bool>)
      modifies db
      ensures Follows(AssetEvaluated(old(db.State()), asset, ingested, order), r, old(db.State()), db.State())
      ensures r == Ok(false) ==> db.State() == old(db.State())
    {
      var recent := Recent(ingested);
      if !TripsHotTemperatureRule(recent) { return Ok(false); }
      if HasActiveAuto(db.Rows(), asset) { return Ok(false); }
      // the transaction
      if asset !in db.assets { return Ok(false); }
      var begun := db.State();
      var statusBefore := db.assets[asset];
      Raised(db.Rows(), RaiseAuto(order, asset, statusBefore));
      RaisingSaved(db.Rows(), order, asset, statusBefore);
      hide Run, Overlay, AutoWrites, TripsHotTemperatureRule, Recent, HasActiveAuto;
      db.assets := db.assets[asset := Critical];
      db.audit := db.audit + [AssetAudit(asset, Some(statusBefore), Critical)];
      db.history := db.history + [HistoryRow(asset, statusBefore, Critical, ByMonitoring)];
      if order in db.orders {
        db.Rollback(begun);
        return Err(Conflict);
      }
      db.orders := db.orders[order := NewOrder(asset, None, Auto)];
      db.audit := db.audit + [OrderAudit(order, None, Lifecycle.Open)];
      db.notices := db.notices + [NewNotice(CriticalAsset, asset)];
      return Ok(true);
    }
  }
}
