/** What the bytes of a message say to the observer. */
module Reading {
  import opened Base
  import opened Wire
  import opened Sql
  import opened Events
  import opened Observer

  lemma {:induction false} TerminatorOf(x: Bytes, rest: Bytes)
    requires 0 !in x
    ensures Terminator(x + [0] + rest) == Some(|x|)
  {
    if x != [] {
      assert x[0] in x;
      assert (x + [0] + rest)[1..] == x[1..] + [0] + rest;
      TerminatorOf(x[1..], rest);
    }
  }

  lemma CStrOf(x: Bytes, rest: Bytes)
    requires 0 !in x
    ensures CStr(x + [0] + rest) == Some((x, rest))
  {
    TerminatorOf(x, rest);
    assert (x + [0] + rest)[..|x|] == x && (x + [0] + rest)[|x| + 1..] == rest;
  }

  lemma CStrOfNone(x: Bytes)
    requires 0 !in x
    ensures CStr(x) == None
  {
  }

  lemma TwoStringsOf(x: Bytes, y: Bytes, rest: Bytes)
    requires 0 !in x && 0 !in y
    ensures TwoStrings(x + [0] + (y + [0] + rest)) == Some((x, y))
    ensures TwoStrings(x + [0] + y) == None && TwoStrings(x) == None
  {
    CStrOf(x, y + [0] + rest);
    CStrOf(y, rest);
    CStrOf(x, y);
    CStrOfNone(x);
    CStrOfNone(y);
  }

  // ---- from the client --------------------------------------------------------

  /** Parse: a name and its SQL, whose class and digest are those of exactly these bytes. */
  lemma ReadsParse(name: Bytes, sql: Bytes, rest: Bytes)
    requires 0 !in name && 0 !in sql
    ensures ReadClient(Frame(80, name + [0] + (sql + [0] + rest))) == Parse(name, Statement(Classify(sql), DigestOf(sql)))
    ensures ReadClient(Frame(80, name + [0] + sql)) == Malformed && ReadClient(Frame(80, name)) == Malformed
  {
    TwoStringsOf(name, sql, rest);
  }

  /** Bind: a portal and the statement it is made from. */
  lemma ReadsBind(portal: Bytes, source: Bytes, rest: Bytes)
    requires 0 !in portal && 0 !in source
    ensures ReadClient(Frame(66, portal + [0] + (source + [0] + rest))) == Bind(portal, source)
    ensures ReadClient(Frame(66, portal + [0] + source)) == Malformed && ReadClient(Frame(66, portal)) == Malformed
  {
    TwoStringsOf(portal, source, rest);
  }

  lemma ReadsClose(kind: byte, name: Bytes, rest: Bytes)
    requires 0 !in name
    ensures ReadClient(Frame(67, [kind] + (name + [0] + rest))) == Close(kind, name)
    ensures ReadClient(Frame(67, [])) == OtherRequest && ReadClient(Frame(67, [kind] + name)) == OtherRequest
  {
    assert ([kind] + (name + [0] + rest))[1..] == name + [0] + rest;
    assert ([kind] + name)[1..] == name;
    CStrOf(name, rest);
    CStrOfNone(name);
  }

  lemma ReadsExecute(portal: Bytes, rest: Bytes)
    requires 0 !in portal
    ensures ReadClient(Frame(69, portal + [0] + rest)) == Execute(Some(portal))
    ensures ReadClient(Frame(69, portal)) == Execute(None)
  {
    CStrOf(portal, rest);
    CStrOfNone(portal);
  }

  lemma ReadsQuery(sql: Bytes, rest: Bytes)
    requires 0 !in sql
    ensures ReadClient(Frame(81, sql + [0] + rest)) == Query(Statement(Classify(sql), DigestOf(sql)))
    ensures ReadClient(Frame(81, sql)) == Query(Statement(Other, Missing))
  {
    CStrOf(sql, rest);
    CStrOfNone(sql);
  }

  /** The tags the observer tells apart. */
  lemma ReadsClientTag(f: Frame)
    ensures ReadClient(f).Sync? <==> f.tag == 83
    ensures ReadClient(f).Query? <==> f.tag == 81
    ensures ReadClient(f).Execute? <==> f.tag == 69
    ensures ReadClient(f).Terminate? <==> f.tag == 88
    ensures Opens(ReadClient(f)) ==> f.tag in {66, 67, 69, 80, 81, 83}
  {
  }

  // ---- from the server --------------------------------------------------------

  lemma ReadsCompletion(tag: Bytes, rest: Bytes)
    requires 0 !in tag
    ensures ReadServer(Frame(67, tag + [0] + rest)) == CommandComplete(Some(tag))
    ensures ReadServer(Frame(67, tag)) == CommandComplete(None)
  {
    CStrOf(tag, rest);
    CStrOfNone(tag);
  }

  /** ParameterStatus: only a new application_name matters. */
  lemma ReadsParameter(key: Bytes, value: Bytes, rest: Bytes)
    requires 0 !in key && 0 !in value
    ensures ReadServer(Frame(83, key + [0] + (value + [0] + rest))) ==
            ParameterStatus(if key == [97, 112, 112, 108, 105, 99, 97, 116, 105, 111, 110, 95, 110, 97, 109, 101] then Some(value) else None)
    ensures ReadServer(Frame(83, key + [0] + value)) == ParameterStatus(None)
  {
    TwoStringsOf(key, value, rest);
  }

  lemma ReadsReady(body: Bytes)
    ensures ReadServer(Frame(90, body)) ==
            if body == [73] then Ready(Idle) else if body == [84] then Ready(InTransaction)
            else if body == [69] then Ready(FailedTransaction) else BadReady
  {
  }

  /** The tags the observer tells apart. */
  lemma ReadsServerTag(f: Frame)
    ensures ReadServer(f).ParseComplete? <==> f.tag == 49
    ensures ReadServer(f).BindComplete? <==> f.tag == 50
    ensures ReadServer(f).CloseComplete? <==> f.tag == 51
    ensures ReadServer(f).RowDescription? <==> f.tag == 84
    ensures ReadServer(f).DataRow? <==> f.tag == 68
    ensures ReadServer(f).CommandComplete? <==> f.tag == 67
    ensures ReadServer(f).PortalSuspended? <==> f.tag == 115
    ensures ReadServer(f).ErrorResponse? <==> f.tag == 69
    ensures ReadServer(f).Ready? || ReadServer(f).BadReady? <==> f.tag == 90
    ensures ReadServer(f).ParameterStatus? <==> f.tag == 83
  {
  }
}
