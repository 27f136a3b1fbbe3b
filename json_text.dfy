/**
 * JSON text as the core writes it by hand: a document kept with its members in the order
 * they are written, and its compact rendering. Strings are kept as the text between their
 * quotes, already escaped by whoever built them.
 */
module JsonText {

  /** A JSON document as written out; a string holds the text between its quotes verbatim. */
  datatype Doc =
    | DObject(members: seq<Member>)
    | DArray(items: seq<Doc>)
    | DString(quoted: string)
    | DNumber(text: string)
    | DBool(b: bool)

  datatype Member = Member(name: string, value: Doc)

  /** The compact text of a document: no white space, members and elements comma-separated. */
  function Render(d: Doc): string
    decreases d
  {
    match d
    case DObject(ms) => "{" + RenderMembers(ms) + "}"
    case DArray(ds) => "[" + RenderItems(ds) + "]"
    case DString(q) => "\"" + q + "\""
    case DNumber(t) => t
    case DBool(b) => if b then "true" else "false"
  }

  function RenderMember(m: Member): string
    decreases m
  {
    "\"" + m.name + "\":" + Render(m.value)
  }

  function RenderMembers(ms: seq<Member>): string
    decreases ms
  {
    if ms == [] then ""
    else RenderMember(ms[0]) + (if |ms| == 1 then "" else "," + RenderMembers(ms[1..]))
  }

  function RenderItems(ds: seq<Doc>): string
    decreases ds
  {
    if ds == [] then ""
    else Render(ds[0]) + (if |ds| == 1 then "" else "," + RenderItems(ds[1..]))
  }

  /** Rendering a member list one member at a time. */
  lemma RenderMembersCons(m: Member, rest: seq<Member>)
    requires rest != []
    ensures RenderMembers([m] + rest) == RenderMember(m) + ("," + RenderMembers(rest))
  {
    assert ([m] + rest)[1..] == rest;
  }

  /** A string member followed by its comma, as one line of a hand-built body writes it. */
  lemma StringMemberLine(name: string, value: string)
    ensures RenderMember(Member(name, DString(value))) + "," == "\"" + name + "\":\"" + value + "\","
  {
  }

  /** A number member followed by its comma. */
  lemma NumberMemberLine(name: string, value: string)
    ensures RenderMember(Member(name, DNumber(value))) + "," == "\"" + name + "\":" + value + ","
  {
  }

  /** An object of two string members. */
  lemma TwoStringMembers(n1: string, v1: string, n2: string, v2: string)
    ensures Render(DObject([Member(n1, DString(v1)), Member(n2, DString(v2))]))
      == "{" + ("\"" + n1 + "\":" + ("\"" + v1 + "\"")) + ("," + ("\"" + n2 + "\":" + ("\"" + v2 + "\""))) + "}"
  {
    var m1, m2 := Member(n1, DString(v1)), Member(n2, DString(v2));
    assert RenderMembers([m2]) == RenderMember(m2);
    RenderMembersCons(m1, [m2]);
    assert [m1] + [m2] == [m1, m2];
    assert Render(DObject([m1, m2])) == "{" + (RenderMember(m1) + ("," + RenderMember(m2))) + "}";
  }
  /** A string member, its name given with the quotes and colon that open it. */
  lemma StringMemberAs(name: string, opening: string, value: string)
    requires opening == "\"" + name + "\":\""
    ensures RenderMember(Member(name, DString(value))) == opening + value + "\""
  {
  }

  /** A number member, its name given with the quotes and colon that open it. */
  lemma NumberMemberAs(name: string, opening: string, value: string)
    requires opening == "\"" + name + "\":"
    ensures RenderMember(Member(name, DNumber(value))) == opening + value
  {
  }

  /** A member of any kind, its name given with the quotes and colon that open it. */
  lemma MemberAs(name: string, opening: string, value: Doc)
    requires opening == "\"" + name + "\":"
    ensures RenderMember(Member(name, value)) == opening + Render(value)
  {
  }

  /** An object of one member. */
  lemma ObjectOfOne(m: Member)
    ensures Render(DObject([m])) == "{" + RenderMember(m) + "}"
  {
    assert RenderMembers([m]) == RenderMember(m);
  }

  /** An object of two members. */
  lemma ObjectOfTwo(m1: Member, m2: Member)
    ensures Render(DObject([m1, m2])) == "{" + (RenderMember(m1) + ("," + RenderMember(m2))) + "}"
  {
    assert RenderMembers([m2]) == RenderMember(m2);
    RenderMembersCons(m1, [m2]);
    assert [m1] + [m2] == [m1, m2];
  }

  /** An object of three members. */
  lemma ObjectOfThree(m1: Member, m2: Member, m3: Member)
    ensures Render(DObject([m1, m2, m3]))
      == "{" + (RenderMember(m1) + ("," + (RenderMember(m2) + ("," + RenderMember(m3))))) + "}"
  {
    assert RenderMembers([m3]) == RenderMember(m3);
    RenderMembersCons(m2, [m3]);
    RenderMembersCons(m1, [m2, m3]);
    assert [m2] + [m3] == [m2, m3];
    assert [m1] + [m2, m3] == [m1, m2, m3];
  }

  /** The text of a member list of two or more: its first member, a comma, the rest. */
  lemma MembersStep(ms: seq<Member>)
    requires |ms| >= 2
    ensures RenderMembers(ms) == RenderMember(ms[0]) + ("," + RenderMembers(ms[1..]))
  {
  }

  /** An object of seven members. */
  lemma ObjectOfSeven(ms: seq<Member>)
    requires |ms| == 7
    ensures Render(DObject(ms))
      == "{" + (RenderMember(ms[0]) + ("," + (RenderMember(ms[1]) + ("," + (RenderMember(ms[2])
      + ("," + (RenderMember(ms[3]) + ("," + (RenderMember(ms[4]) + ("," + (RenderMember(ms[5])
      + ("," + RenderMember(ms[6]))))))))))))) + "}"
  {
    var t1 := ms[1..];
    var t2 := t1[1..];
    var t3 := t2[1..];
    var t4 := t3[1..];
    var t5 := t4[1..];
    var t6 := t5[1..];
    assert t1[0] == ms[1] && t2[0] == ms[2] && t3[0] == ms[3];
    assert t4[0] == ms[4] && t5[0] == ms[5] && t6[0] == ms[6];
    assert RenderMembers(t6) == RenderMember(ms[6]);
    MembersStep(t5);
    MembersStep(t4);
    MembersStep(t3);
    MembersStep(t2);
    MembersStep(t1);
    MembersStep(ms);
  }
}
