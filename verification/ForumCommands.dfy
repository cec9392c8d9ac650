/** The Forum's five mutations, who issues them, and their fingerprints. */
module ForumCommands {
  import opened Basics
  import opened Fingerprints
  import Refs

  datatype Role = ProductResearch | EngineeringRole | QualityRole
  datatype PostKind = Note | Question | Finding | Proposal | Challenge | Correction | DecisionLink

  /** The accepted socket binding of an actor. */
  datatype Binding = Binding(session: RowId, assignment: RowId, application: RowId, campaign: RowId, office: Role)

  type Attachments = xs: seq<Attachment> | |xs| < TWO64

  datatype ForumCommand =
    | CreateTopic(commandId: Text, expected: U64, name: Text, description: Text)
    | CreateThread(commandId: Text, expected: U64, topic: RowId, title: Text)
    | SupersedeTopic(commandId: Text, expected: U64, oldTopic: RowId, name: Text, description: Text)
    | SupersedeThread(commandId: Text, expected: U64, topic: RowId, oldThread: RowId, title: Text)
    | AppendPost(commandId: Text, expected: U64, thread: RowId, kind: PostKind, body: Text,
                 replyTo: Option<RowId>, supersedes: Option<RowId>, attachments: Attachments)

  function Operation(c: ForumCommand): Text {
    if c.CreateTopic? then "forum.topic.create"
    else if c.CreateThread? then "forum.thread.create"
    else if c.SupersedeTopic? then "forum.topic.supersede"
    else if c.SupersedeThread? then "forum.thread.supersede"
    else "forum.post.append"
  }

  function OfficeNumber(r: Role): U16 { match r case ProductResearch => 0 case EngineeringRole => 1 case QualityRole => 2 }

  function KindNumber(k: PostKind): U16 {
    match k
    case Note => 0 case Question => 1 case Finding => 2 case Proposal => 3 case Challenge => 4 case Correction => 5 case DecisionLink => 6
  }

  /** `actor_principal` */
  function Principal(b: Binding): string {
    "actor-session-" + (Decimal(b.session) + ("-assignment-" + (Decimal(b.assignment)
      + ("-application-" + (Decimal(b.application) + ("-campaign-" + Decimal(b.campaign)))))))
  }

  lemma PrincipalInjective(a: Binding, b: Binding)
    requires Principal(a) == Principal(b)
    ensures a.session == b.session && a.assignment == b.assignment && a.application == b.application
            && a.campaign == b.campaign
  {
    var a3, b3 := "-campaign-" + Decimal(a.campaign), "-campaign-" + Decimal(b.campaign);
    var a2, b2 := "-application-" + (Decimal(a.application) + a3), "-application-" + (Decimal(b.application) + b3);
    var a1, b1 := "-assignment-" + (Decimal(a.assignment) + a2), "-assignment-" + (Decimal(b.assignment) + b2);
    AppendInjective("actor-session-", Decimal(a.session) + a1, "actor-session-", Decimal(b.session) + b1);
    DecimalThenStop(a.session, a1, b.session, b1);
    AppendInjective("-assignment-", Decimal(a.assignment) + a2, "-assignment-", Decimal(b.assignment) + b2);
    DecimalThenStop(a.assignment, a2, b.assignment, b2);
    AppendInjective("-application-", Decimal(a.application) + a3, "-application-", Decimal(b.application) + b3);
    DecimalThenStop(a.application, a3, b.application, b3);
    AppendInjective("-campaign-", Decimal(a.campaign), "-campaign-", Decimal(b.campaign));
    DecimalInjective(a.campaign, b.campaign);
  }

  function PrincipalText(b: Binding): (t: Text)
    ensures t == Principal(b)
  {
    PrincipalIsShort(b);
    Principal(b)
  }

  lemma PrincipalIsShort(b: Binding)
    ensures |Principal(b)| < TWO64
  {
    Refs.RowIdLength(b.session);
    Refs.RowIdLength(b.assignment);
    Refs.RowIdLength(b.application);
    Refs.RowIdLength(b.campaign);
  }

  /** The optional id fields as the hasher takes them. */
  function Word(id: Option<RowId>): Option<U64> { if id.None? then None else Some(id.value) }

  function Payload(c: ForumCommand): seq<Field> {
    match c
    case CreateTopic(_, _, name, description) => [FText(name), FText(description)]
    case CreateThread(_, _, topic, title) => [FWord(topic), FText(title)]
    case SupersedeTopic(_, _, old_, name, description) => [FWord(old_), FText(name), FText(description)]
    case SupersedeThread(_, _, topic, old_, title) => [FWord(topic), FWord(old_), FText(title)]
    case AppendPost(_, _, thread, kind, body, replyTo, supersedes, attachments) =>
      [FWord(thread), FShort(KindNumber(kind)), FText(body), FOptional(Word(replyTo)), FOptional(Word(supersedes)),
       FAttachments(attachments)]
  }

  /** `command_hasher`; the author kind of an actor is zero and its session is present. */
  function Header(b: Binding, c: ForumCommand): seq<Field> {
    [FText(Operation(c)), FText(PrincipalText(b)), FText(c.commandId), FWord(c.expected),
     FShort(0), FOptional(Some(b.session)), FShort(OfficeNumber(b.office))]
  }

  function Fingerprint(b: Binding, c: ForumCommand): string {
    Encode(Header(b, c) + Payload(c))
  }

  predicate SameConstructor(c: ForumCommand, d: ForumCommand) {
    || (c.CreateTopic? && d.CreateTopic?) || (c.CreateThread? && d.CreateThread?) || (c.SupersedeTopic? && d.SupersedeTopic?)
    || (c.SupersedeThread? && d.SupersedeThread?) || (c.AppendPost? && d.AppendPost?)
  }

  lemma OperationNamesConstructor(c: ForumCommand, d: ForumCommand)
    requires Operation(c) == Operation(d)
    ensures SameConstructor(c, d)
  {
    var x, y := Operation(c), Operation(d);
    assert |x| == |y| && x[|x| - 1] == y[|y| - 1] && x[6] == y[6] && x[7] == y[7];
  }

  lemma PayloadShape(c: ForumCommand, d: ForumCommand)
    requires SameConstructor(c, d)
    ensures SameShape(Payload(c), Payload(d))
  {
  }

  lemma OnlyPostsAttach(c: ForumCommand)
    ensures forall i :: 0 <= i < |Payload(c)| && Payload(c)[i].FAttachments? ==> |Payload(c)[i].attachments| < TWO64
  {
  }

  lemma HeaderIsPlain(b: Binding, c: ForumCommand)
    ensures forall i :: 0 <= i < 7 ==> !Header(b, c)[i].FAttachments?
  {
    hide PrincipalText;
  }

  function Hashed(b: Binding, c: ForumCommand): (fs: Fields)
    ensures fs == Header(b, c) + Payload(c)
  {
    HeaderIsPlain(b, c);
    OnlyPostsAttach(c);
    Header(b, c) + Payload(c)
  }

  lemma PayloadDetermines(c: ForumCommand, d: ForumCommand)
    requires SameConstructor(c, d) && Payload(c) == Payload(d) && c.commandId == d.commandId && c.expected == d.expected
    ensures c == d
  {
    var x, y := Payload(c), Payload(d);
    assert |x| == |y| && x[0] == y[0] && x[1] == y[1];
    if |x| > 2 { assert x[2] == y[2]; }
    if |x| > 3 { assert x[3] == y[3] && x[4] == y[4] && x[5] == y[5]; }
  }

  lemma HeaderDetermines(a: Binding, c: ForumCommand, b: Binding, d: ForumCommand)
    requires Header(a, c) == Header(b, d)
    ensures a == b && Operation(c) == Operation(d) && c.commandId == d.commandId && c.expected == d.expected
  {
    var x, y := Header(a, c), Header(b, d);
    assert x[0] == y[0] && x[1] == y[1] && x[2] == y[2] && x[3] == y[3] && x[6] == y[6];
    PrincipalInjective(a, b);
    hide PrincipalText, Principal;
  }

  lemma HeadersSameShape(a: Binding, c: ForumCommand, b: Binding, d: ForumCommand)
    requires SameConstructor(c, d)
    ensures SameShape(Hashed(a, c), Hashed(b, d))
  {
    PayloadShape(c, d);
    hide PrincipalText, Payload, Operation;
  }

  /** Two Forum commands under bindings have one fingerprint only if they are one
      command under one binding. */
  lemma FingerprintInjective(a: Binding, c: ForumCommand, b: Binding, d: ForumCommand)
    ensures Fingerprint(a, c) == Fingerprint(b, d) <==> a == b && c == d
  {
    if Fingerprint(a, c) == Fingerprint(b, d) {
      hide Header, Payload, Operation, PrincipalText, Principal;
      LeadingOperation(a, c, b, d);
      OperationNamesConstructor(c, d);
      HeadersSameShape(a, c, b, d);
      EncodeInjective(Hashed(a, c), Hashed(b, d));
      HeaderLength(a, c);
      HeaderLength(b, d);
      AppendInjective(Header(a, c), Payload(c), Header(b, d), Payload(d));
      HeaderDetermines(a, c, b, d);
      PayloadDetermines(c, d);
    }
  }

  lemma HeaderLength(b: Binding, c: ForumCommand)
    ensures |Header(b, c)| == 7 && Header(b, c)[0] == FText(Operation(c))
  {
  }

  lemma LeadingOperation(a: Binding, c: ForumCommand, b: Binding, d: ForumCommand)
    requires Fingerprint(a, c) == Fingerprint(b, d)
    ensures Operation(c) == Operation(d)
  {
    hide Header, Payload, Operation;
    HeaderLength(a, c);
    HeaderLength(b, d);
    LeadingText(Hashed(a, c), Hashed(b, d));
  }
}
