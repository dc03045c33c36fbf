// Edge-triggered incidents.
module Health {
  import opened Options
  import opened Tables

  // A row as handed to the notifier.
  datatype Notice = Notice(key: IncidentKey, incident: Incident)

  function OpenedAt(now: int): Incident {
    Incident(true, now, None, now)
  }

  // Opening a set of incidents at one moment: an active incident keeps its row.
  function Opened(incidents: Incidents, keys: set<IncidentKey>, now: int): Incidents {
    map k | k in incidents.Keys + keys :: if k in keys && !Active(incidents, k) then OpenedAt(now) else incidents[k]
  }

  // Recovering a resource closes whatever is active for it.
  function Recovered(incidents: Incidents, kind: ResourceKind, resourceId: string, now: int): Incidents {
    map k | k in incidents :: if k.kind == kind && k.resourceId == resourceId && incidents[k].active
                              then incidents[k].(active := false, closedAt := Some(now), lastChangedAt := now)
                              else incidents[k]
  }

  lemma OpenedOneMore(incidents: Incidents, keys: set<IncidentKey>, key: IncidentKey, now: int)
    ensures Opened(Opened(incidents, keys, now), {key}, now) == Opened(incidents, keys + {key}, now)
  {
  }

  // After a recovery no incident of the resource is active, those that were are closed at that
  // moment, and nothing else has changed; a second recovery changes nothing.
  lemma RecoveryCloses(incidents: Incidents, kind: ResourceKind, resourceId: string, now: int, later: int)
    ensures var after := Recovered(incidents, kind, resourceId, now);
            && after.Keys == incidents.Keys
            && (forall key :: Active(after, key) <==>
                              Active(incidents, key) && !(key.kind == kind && key.resourceId == resourceId))
            && (forall key :: Active(incidents, key) && !Active(after, key) ==>
                                after[key].closedAt == Some(now) && after[key].openedAt == incidents[key].openedAt)
            && (forall key :: key in incidents && (Active(incidents, key) <==> Active(after, key)) ==>
                                after[key] == incidents[key])
            && Recovered(after, kind, resourceId, later) == after
  {
  }

  // An incident opened after a recovery is a new one: reported, and dated from then on.
  lemma ReopensAfterRecovery(incidents: Incidents, key: IncidentKey, now: int, later: int)
    ensures var after := Recovered(incidents, key.kind, key.resourceId, now);
            var incident := Opened(after, {key}, later)[key];
            && !Active(after, key) && incident.active
            && incident.openedAt == later && incident.closedAt == None && incident.lastChangedAt == later
  {
  }

  method OpenIncident(db: Database, kind: ResourceKind, resourceId: string, condition: Condition, now: int)
    returns (created: Option<Notice>)
    modifies db`incidents
    ensures var key := IncidentKey(kind, resourceId, condition);
            && db.incidents == Opened(old(db.incidents), {key}, now)
            && created == (if Active(old(db.incidents), key) then None else Some(Notice(key, OpenedAt(now))))
            // a new incident is open, and dated from now
            && (created.Some? ==>
                  var incident := db.incidents[key];
                  && created.value == Notice(key, incident) && incident.active
                  && incident.openedAt == now && incident.closedAt == None && incident.lastChangedAt == now)
  {
    var key := IncidentKey(kind, resourceId, condition);
    if key in db.incidents && db.incidents[key].active {
      assert db.incidents == Opened(db.incidents, {key}, now);
      return None;
    }
    if key !in db.incidents {
      db.incidents := db.incidents[key := Incident(true, now, None, now)];
    } else {
      var reopened := db.incidents[key].(active := true, openedAt := now, closedAt := None, lastChangedAt := now);
      db.incidents := db.incidents[key := reopened];
    }
    assert db.incidents == Opened(old(db.incidents), {key}, now);
    created := Some(Notice(key, db.incidents[key]));
  }

  method RecoverResource(db: Database, kind: ResourceKind, resourceId: string, now: int)
    modifies db`incidents
    ensures db.incidents == Recovered(old(db.incidents), kind, resourceId, now)
  {
    db.incidents :=
      map k | k in db.incidents :: if k.kind == kind && k.resourceId == resourceId && db.incidents[k].active
                                   then db.incidents[k].(active := false, closedAt := Some(now), lastChangedAt := now)
                                   else db.incidents[k];
  }
}
