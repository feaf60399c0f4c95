/** The records that the owner makes directly: sessions, and where an agent comes from. */
module OwnerRecords {
  import opened Common
  import opened Records
  import opened Protocol
  import opened Runs

  lemma SessionCreatedExactly(w: World, db: Db, session: Option<Id>, name: string, env: Env)
    ensures var (db', reply) := Control(w, db, CreateSession(session, name), env);
            var id := session.GetOr(env.newId);
            if id in db.sessions || (session.Some? && !Proper(id)) then db' == db && reply.Failure?
            else db'.sessions == db.sessions[id := name] && reply == SessionReply(id, name)
  {
  }

  /** A session that was created is never again unknown, and its id is not given twice. */
  lemma CreatedSessionsStay(w: World, labels: seq<Label>, i: nat, j: nat)
    requires i < j < |labels| && labels[i].ControlStep? && labels[i].command.CreateSession?
    ensures var reply := Control(w, Run(w, labels[..i]).db, labels[i].command, labels[i].env).1;
            if reply.SessionReply? then
              && labels[i].command.session.GetOr(labels[i].env.newId) == reply.sessionId
              && reply.sessionId in Run(w, labels[..j]).db.sessions
              && (labels[j].ControlStep? && labels[j].command == CreateSession(Some(reply.sessionId), reply.name) ==>
                    Control(w, Run(w, labels[..j]).db, labels[j].command, labels[j].env).1.Failure?)
            else Run(w, labels[..i + 1]).db == Run(w, labels[..i]).db
  {
    RunStep(w, labels, i);
    var c, d := labels[i].command, Run(w, labels[..i]).db;
    SessionCreatedExactly(w, d, c.session, c.name, labels[i].env);
    RunEvolves(w, labels, i + 1, j);
    if labels[j].ControlStep? && labels[j].command.CreateSession? {
      c, d := labels[j].command, Run(w, labels[..j]).db;
      SessionCreatedExactly(w, d, c.session, c.name, labels[j].env);
    }
  }

  const LowerHex := "0123456789abcdef"

  /** A SHA-256 digest as it is printed: 64 lower-case hexadecimal digits. */
  predicate IsDigest(text: string) {
    |text| == 64 && forall i | 0 <= i < |text| :: text[i] in LowerHex
  }

  lemma HexDigitExactly(c: char)
    ensures HexDigit(c) <==> c in LowerHex
  {
    if '0' <= c <= '9' {
      assert LowerHex[c as int - '0' as int] == c;
    } else if 'a' <= c <= 'f' {
      assert LowerHex[c as int - 'a' as int + 10] == c;
    }
  }

  /** Provenance is recorded, and replaces what was recorded before, exactly when it names a digest. */
  lemma ProvenanceExactly(w: World, db: Db, agent: string, sha256: string, source: string, version: string, env: Env)
    ensures var (db', reply) := Control(w, db, RecordProvenance(agent, sha256, source, version), env);
            if Proper(agent) && Proper(source) && IsDigest(sha256) then
              && db'.provenance == db.provenance[agent := Provenance(sha256, source, version)]
              && reply == ProvenanceReply(Provenance(sha256, source, version))
              && |db'.log| == |db.log| + 1 && db'.log[|db.log|].event == ProvenanceRecorded(agent, sha256)
            else db' == db && reply.Failure?
  {
    forall c: char ensures HexDigit(c) <==> c in LowerHex {
      HexDigitExactly(c);
    }
  }
}
