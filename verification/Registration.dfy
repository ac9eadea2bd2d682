/** The registration part of a Thing Description, which the server owns. */
module Registration {
  import opened Json

  /** An instant with the zone offset it is written in. */
  datatype Time = Time(nanos: int, offset: int)

  function Plus(t: Time, d: int): Time { Time(t.nanos + d, t.offset) }

  predicate IsAfter(t: Time, u: Time) { t.nanos > u.nanos }

  datatype Verdict = Valid | Issues | Unable

  /** Code the directory calls but does not contain: time.Parse for RFC 3339, time.Time's MarshalJSON
      (which fails for years outside 0 to 9999), the conversion of a TTL to a time.Duration, and the
      validation against the configured JSON Schemas. */
  datatype Env = Env(
    parse: string -> Option<Time>,
    format: Time -> Option<string>,
    duration: real -> int,
    validate: Members -> Verdict)

  ghost predicate Lawful(env: Env) {
    forall t: Time :: env.format(t).Some? ==> env.parse(env.format(t).value) == Some(t)
  }

  datatype Registration = Registration(
    created: Option<Time>, modified: Option<Time>, expires: Option<Time>, ttl: Option<real>)

  /** The outcome of reading a registration: nothing there, a time that does not parse, or a value. */
  datatype Reading = Missing | Panic | Found(tr: Registration)

  datatype TimeReading = Absent | Unparsable | At(t: Time)

  function ReadTime(env: Env, reg: Members, key: string): TimeReading {
    if key !in reg || !reg[key].Str? then Absent
    else
      var t := env.parse(reg[key].s);
      if t.None? then Unparsable else At(t.value)
  }

  function Given(t: TimeReading): Option<Time> { if t.At? then Some(t.t) else None }

  function ReadTtl(reg: Members): Option<real> {
    if "ttl" in reg && reg["ttl"].Num? then Some(reg["ttl"].n) else None
  }

  /** ThingRegistration */
  function Read(env: Env, td: Members): Reading {
    if "registration" !in td || !td["registration"].Obj? then Missing
    else
      var reg := td["registration"].m;
      var created, modified := ReadTime(env, reg, "created"), ReadTime(env, reg, "modified");
      var expires := ReadTime(env, reg, "expires");
      if created.Unparsable? || modified.Unparsable? || expires.Unparsable? then Panic
      else Found(Registration(Given(created), Given(modified), Given(expires), ReadTtl(reg)))
  }

  /** computeExpiry */
  function ComputeExpiry(env: Env, tr: Option<Registration>, now: Time): Option<Time> {
    if tr.None? then None
    else if tr.value.ttl.Some? then Some(Plus(now, env.duration(tr.value.ttl.value)))
    else tr.value.expires
  }

  function Ttl(tr: Option<Registration>): Option<real> { if tr.None? then None else tr.value.ttl }

  function TimeMember(env: Env, key: string, t: Option<Time>): Members {
    if t.Some? && env.format(t.value).Some? then map[key := Str(env.format(t.value).value)] else map[]
  }

  predicate Formattable(env: Env, t: Option<Time>) { t.Some? ==> env.format(t.value).Some? }

  predicate Writable(env: Env, tr: Registration) {
    Formattable(env, tr.created) && Formattable(env, tr.modified) && Formattable(env, tr.expires)
  }

  /** The JSON form of a registration; absent fields are omitted. */
  function Write(env: Env, tr: Registration): Members {
    TimeMember(env, "created", tr.created) + TimeMember(env, "expires", tr.expires)
      + TimeMember(env, "modified", tr.modified)
      + if tr.ttl.Some? then map["ttl" := Num(tr.ttl.value)] else map[]
  }

  function WithRegistration(env: Env, td: Members, tr: Registration): Members {
    td["registration" := Obj(Write(env, tr))]
  }

  /** What is written is what is read back. */
  lemma WriteRead(env: Env, td: Members, tr: Registration)
    requires Lawful(env) && Writable(env, tr)
    ensures Read(env, WithRegistration(env, td, tr)) == Found(tr)
  {
    var reg := Write(env, tr);
    assert "created" in reg <==> tr.created.Some?;
    assert "modified" in reg <==> tr.modified.Some?;
    assert "expires" in reg <==> tr.expires.Some?;
    assert "ttl" in reg <==> tr.ttl.Some?;
  }

  // ---------- a registration as JSON ----------

  /** The registration of a TD; without an object there, it is as good as empty. */
  function Part(td: Members): Members {
    if "registration" in td && td["registration"].Obj? then td["registration"].m else map[]
  }

  predicate TimeReads(env: Env, reg: Members, key: string) {
    key in reg && reg[key].Str? ==> env.parse(reg[key].s).Some?
  }

  /** Every time that is given as a string can be read. */
  predicate TimesRead(env: Env, reg: Members) {
    TimeReads(env, reg, "created") && TimeReads(env, reg, "modified") && TimeReads(env, reg, "expires")
  }

  /** A time that is given as a string. */
  function TimeAt(env: Env, reg: Members, key: string): Option<Time> {
    if key in reg && reg[key].Str? then env.parse(reg[key].s) else None
  }

  /** When a TD will expire that is registered with this registration: a TTL from now, or as given. */
  function ExpiryFrom(env: Env, reg: Members, now: Time): Option<Time> {
    if "ttl" in reg && reg["ttl"].Num? then Some(Time(now.nanos + env.duration(reg["ttl"].n), now.offset))
    else TimeAt(env, reg, "expires")
  }

  /** The TD has a readable registration whose expiry is in the past. */
  predicate Overdue(env: Env, td: Members, t: Time) {
    var reg := Part(td);
    && TimesRead(env, reg)
    && "expires" in reg && reg["expires"].Str? && env.parse(reg["expires"].s).value.nanos < t.nanos
  }

  /** A member is there exactly if there is a time, and is its text. */
  predicate IsText(env: Env, reg: Members, key: string, t: Option<Time>) {
    if t.None? then key !in reg
    else key in reg && env.format(t.value).Some? && reg[key] == Str(env.format(t.value).value)
  }

  /** A TD as it was sent, but with a registration of the server's making. */
  predicate IsStamped(env: Env, sent: Members, stored: Members, created: Option<Time>, now: Time) {
    && stored - {"registration"} == sent - {"registration"}
    && "registration" in stored && stored["registration"].Obj?
    && var reg, given := stored["registration"].m, Part(sent);
       && IsText(env, reg, "created", created)
       && IsText(env, reg, "modified", Some(now))
       && IsText(env, reg, "expires", ExpiryFrom(env, given, now))
       && ("ttl" in reg <==> "ttl" in given && given["ttl"].Num?) && ("ttl" in reg ==> reg["ttl"] == given["ttl"])
       && reg.Keys <= {"created", "modified", "expires", "ttl"}
  }

  /** All the times of the new registration have a text. */
  predicate CanStamp(env: Env, sent: Members, created: Option<Time>, now: Time) {
    Formattable(env, created) && env.format(now).Some? && Formattable(env, ExpiryFrom(env, Part(sent), now))
  }

  /** What is read of a registration, member by member. */
  lemma ReadMembers(env: Env, td: Members)
    ensures var r, reg := Read(env, td), Part(td);
            && (r.Missing? <==> "registration" !in td || !td["registration"].Obj?)
            && (r.Panic? <==> !TimesRead(env, reg))
            && (r.Found? ==>
                  && r.tr.created == TimeAt(env, reg, "created") && r.tr.modified == TimeAt(env, reg, "modified")
                  && r.tr.expires == TimeAt(env, reg, "expires")
                  && r.tr.ttl == if "ttl" in reg && reg["ttl"].Num? then Some(reg["ttl"].n) else None)
  {
  }

  lemma ExpiryComputed(env: Env, td: Members, now: Time)
    requires !Read(env, td).Panic?
    ensures var r := Read(env, td);
            ComputeExpiry(env, if r.Found? then Some(r.tr) else None, now) == ExpiryFrom(env, Part(td), now)
  {
    ReadMembers(env, td);
    hide Read;
  }

  /** What is written, member by member. */
  lemma WrittenMembers(env: Env, tr: Registration)
    requires Writable(env, tr)
    ensures var reg := Write(env, tr);
            && IsText(env, reg, "created", tr.created) && IsText(env, reg, "modified", tr.modified)
            && IsText(env, reg, "expires", tr.expires)
            && ("ttl" in reg <==> tr.ttl.Some?) && (tr.ttl.Some? ==> reg["ttl"] == Num(tr.ttl.value))
            && reg.Keys <= {"created", "modified", "expires", "ttl"}
  {
  }

  /** What the server makes is read back as it was made. */
  lemma StampReads(env: Env, sent: Members, stored: Members, created: Option<Time>, now: Time)
    requires Lawful(env) && IsStamped(env, sent, stored, created, now)
    ensures var reg := Part(stored);
            && TimesRead(env, reg)
            && TimeAt(env, reg, "created") == created && TimeAt(env, reg, "modified") == Some(now)
            && TimeAt(env, reg, "expires") == ExpiryFrom(env, Part(sent), now)
  {
    TextReads(env, Part(stored), "created", created);
    TextReads(env, Part(stored), "modified", Some(now));
    TextReads(env, Part(stored), "expires", ExpiryFrom(env, Part(sent), now));
  }

  lemma TextReads(env: Env, reg: Members, key: string, t: Option<Time>)
    requires Lawful(env) && IsText(env, reg, key, t)
    ensures TimeReads(env, reg, key) && TimeAt(env, reg, key) == t
  {
  }

  lemma OverdueAt(env: Env, td: Members, t: Time)
    requires TimesRead(env, Part(td))
    ensures var e := TimeAt(env, Part(td), "expires");
            Overdue(env, td, t) <==> e.Some? && e.value.nanos < t.nanos
  {
  }
}
