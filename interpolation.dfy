/**
 * An independent description of how the document is produced: the template literal
 * as a list of fixed text pieces and value slots, and filling it in as the
 * concatenation of the pieces with the slots replaced by the values, untouched.
 */
module Interpolation {

  import opened UserData

  /** The values a slot of the template can stand for. */
  datatype Field = TenantId | ClientId | Hostname | AdminUser | AdminPassword

  /** A template literal: fixed text and substitutions, in document order. */
  datatype Template = End | Text(text: string, rest: Template) | Slot(field: Field, rest: Template)

  function Value(s: Settings, f: Field): string {
    match f
    case TenantId => s.tenantId
    case ClientId => s.clientId
    case Hostname => s.hostname
    case AdminUser => s.adminUser
    case AdminPassword => s.adminPassword
  }

  /** The template with every slot replaced by its value, verbatim. */
  function Fill(t: Template, s: Settings): string {
    match t
    case End => []
    case Text(x, rest) => x + Fill(rest, s)
    case Slot(f, rest) => Value(s, f) + Fill(rest, s)
  }

  /** The number of characters of fixed text in a template. */
  function TextLength(t: Template): nat {
    match t
    case End => 0
    case Text(x, rest) => |x| + TextLength(rest)
    case Slot(_, rest) => TextLength(rest)
  }

  /** The number of characters the values put into the slots of a template. */
  function SlotLength(t: Template, s: Settings): nat {
    match t
    case End => 0
    case Text(_, rest) => SlotLength(rest, s)
    case Slot(f, rest) => |Value(s, f)| + SlotLength(rest, s)
  }

  /** Substitution neither adds nor drops characters: text plus values, nothing else. */
  lemma {:induction false} FillLength(t: Template, s: Settings)
    ensures |Fill(t, s)| == TextLength(t) + SlotLength(t, s)
  {
    match t
    case End =>
    case Text(x, rest) => FillLength(rest, s);
    case Slot(f, rest) => FillLength(rest, s);
  }

  // The fixed text between the substitutions of the outer template literal.

  function Q0(k: Texts): string { k.header + k.identityIntro + "\n" + k.hostnameKey }
  function Q1(k: Texts): string { "\n" + k.usernameKey }
  function Q2(k: Texts): string { "\n" + k.passwordKey }
  function Q3(k: Texts): string { "\"" + "\n" + k.userDataIntro + "\n" + k.issuerPrefix }
  function Q4(k: Texts): string { k.issuerSuffix + "\n" + k.clientIdKey }
  function Q5(k: Texts): string { "\n" + k.runcmdIntro + "\n" + k.indent }

  /** The text after the conditional substitution. */
  function Closing(k: Texts): string { "\n" + k.epilogue }

  /** The fixed text of the inner template literal of the lock branch. */
  function LockText(k: Texts): string { k.lockHeading + "\n" + k.lockNote + "\n" + k.lockCommand }

  /** The outer template up to the conditional substitution, followed by `tail`. */
  function Outer(k: Texts, tail: Template): Template {
    Text(Q0(k), Slot(Hostname, Text(Q1(k), Slot(AdminUser, Text(Q2(k), Slot(AdminPassword,
      Text(Q3(k), Slot(TenantId, Text(Q4(k), Slot(ClientId, Text(Q5(k), tail)))))))))))
  }

  /** The conditional substitution, spliced in, and the closing text. */
  function Conditional(k: Texts, disableLocal: bool): Template {
    if disableLocal then Text(LockText(k), Slot(AdminUser, Text(Closing(k), End)))
    else Text(k.keepComment, Text(Closing(k), End))
  }

  /** The whole template literal for one setting of the checkbox. */
  function Skeleton(k: Texts, disableLocal: bool): Template {
    Outer(k, Conditional(k, disableLocal))
  }

  lemma FillSlotText(f: Field, x: string, rest: Template, s: Settings)
    ensures Fill(Slot(f, Text(x, rest)), s) == Value(s, f) + (x + Fill(rest, s))
  {
  }

  lemma OuterUnfold(k: Texts, tail: Template, s: Settings)
    ensures Fill(Outer(k, tail), s)
         == Q0(k) + (s.hostname + (Q1(k) + (s.adminUser + (Q2(k) + (s.adminPassword + (Q3(k) + (s.tenantId
            + (Q4(k) + (s.clientId + (Q5(k) + Fill(tail, s)))))))))))
  {
    var k10 := Slot(ClientId, Text(Q5(k), tail));
    var k8 := Slot(TenantId, Text(Q4(k), k10));
    var k6 := Slot(AdminPassword, Text(Q3(k), k8));
    var k4 := Slot(AdminUser, Text(Q2(k), k6));
    FillSlotText(ClientId, Q5(k), tail, s);
    FillSlotText(TenantId, Q4(k), k10, s);
    FillSlotText(AdminPassword, Q3(k), k8, s);
    FillSlotText(AdminUser, Q2(k), k6, s);
    FillSlotText(Hostname, Q1(k), k4, s);
  }

  lemma OuterFill(k: Texts, tail: Template, s: Settings)
    ensures Fill(Outer(k, tail), s) == TextBeforeSegment(k, s) + Fill(tail, s)
  {
    OuterUnfold(k, tail, s);
    OuterRegroup(k.header, k.identityIntro, k.hostnameKey, s.hostname, "\n", k.usernameKey, s.adminUser,
                 k.passwordKey, s.adminPassword, "\"", k.userDataIntro, k.issuerPrefix, s.tenantId,
                 k.issuerSuffix, k.clientIdKey, s.clientId, k.runcmdIntro, k.indent, Fill(tail, s));
  }

  lemma OuterRegroup(hd: string, ii: string, hk: string, h: string, nl: string, uk: string, u: string,
                     pk: string, p: string, q: string, ud: string, ip: string, t: string, sx: string,
                     ck: string, c: string, ri: string, ci: string, f: string)
    ensures (hd + ii + nl + hk) + (h + ((nl + uk) + (u + ((nl + pk) + (p + ((q + nl + ud + nl + ip)
              + (t + ((sx + nl + ck) + (c + ((nl + ri + nl + ci) + f))))))))))
         == hd + ii + nl + ((hk + h) + nl + (uk + u) + nl + (pk + p + q)) + nl + ud + nl
            + ((ip + t + sx) + nl + (ck + c)) + nl + ri + nl + ci + f
  {
  }

  lemma OuterSlotLength(k: Texts, tail: Template, s: Settings)
    ensures SlotLength(Outer(k, tail), s)
         == |s.hostname| + |s.adminUser| + |s.adminPassword| + |s.tenantId| + |s.clientId|
            + SlotLength(tail, s)
  {
    var k11 := Text(Q5(k), tail);
    var k9 := Text(Q4(k), Slot(ClientId, k11));
    var k7 := Text(Q3(k), Slot(TenantId, k9));
    var k5 := Text(Q2(k), Slot(AdminPassword, k7));
    var k3 := Text(Q1(k), Slot(AdminUser, k5));
    assert SlotLength(k11, s) == SlotLength(tail, s);
    assert SlotLength(k9, s) == |s.clientId| + SlotLength(tail, s);
    assert SlotLength(k7, s) == |s.tenantId| + SlotLength(k9, s);
    assert SlotLength(k5, s) == |s.adminPassword| + SlotLength(k7, s);
    assert SlotLength(k3, s) == |s.adminUser| + SlotLength(k5, s);
  }

  lemma ConditionalFill(k: Texts, disableLocal: bool, s: Settings)
    ensures Fill(Conditional(k, disableLocal), s) == LocalAccountSegment(k, disableLocal, s.adminUser) + Closing(k)
  {
    if disableLocal {
      FillSlotText(AdminUser, Closing(k), End, s);
      ConditionalRegroup(LockText(k), s.adminUser, Closing(k));
    } else {
      var closing := Text(Closing(k), End);
      assert Fill(closing, s) == Closing(k) + [];
      assert Closing(k) + [] == Closing(k);
    }
  }

  lemma ConditionalRegroup(text: string, u: string, closing: string)
    ensures text + (u + (closing + [])) == text + u + closing
  {
  }

  lemma ConditionalSlotLength(k: Texts, disableLocal: bool, s: Settings)
    ensures SlotLength(Conditional(k, disableLocal), s) == if disableLocal then |s.adminUser| else 0
  {
    var closing := Text(Closing(k), End);
    assert SlotLength(closing, s) == 0;
  }

  /**
   * Laying out the template text is filling in the template literal: the fixed text
   * is that of the template for the chosen checkbox setting, whatever the values,
   * and every value appears in its slot exactly as given.
   */
  lemma LayoutIsFill(k: Texts, s: Settings)
    ensures Layout(k, s) == Fill(Skeleton(k, s.disableLocal), s)
  {
    var seg := LocalAccountSegment(k, s.disableLocal, s.adminUser);
    LayoutAroundSegment(k, s);
    OuterFill(k, Conditional(k, s.disableLocal), s);
    ConditionalFill(k, s.disableLocal, s);
    SegmentAppend(TextBeforeSegment(k, s), seg, Closing(k));
  }

  lemma SegmentAppend(before: string, segment: string, after: string)
    ensures before + segment + after == before + (segment + after)
  {
  }

  /** The generated document is the script's template literal, filled in. */
  lemma RenderIsFill(s: Settings)
    ensures Render(s) == Fill(Skeleton(TemplateText, s.disableLocal), s)
  {
    LayoutIsFill(TemplateText, s);
  }

  /**
   * The length of the document is a constant fixed by the checkbox plus the lengths
   * of the values, the admin user counted twice when the lock command names it.
   */
  lemma LayoutLength(k: Texts, s: Settings)
    ensures |Layout(k, s)|
         == TextLength(Skeleton(k, s.disableLocal))
            + |s.hostname| + |s.adminUser| + |s.adminPassword| + |s.tenantId| + |s.clientId|
            + (if s.disableLocal then |s.adminUser| else 0)
  {
    var tail := Conditional(k, s.disableLocal);
    LayoutIsFill(k, s);
    FillLength(Outer(k, tail), s);
    OuterSlotLength(k, tail, s);
    ConditionalSlotLength(k, s.disableLocal, s);
  }

  lemma DocumentLength(s: Settings)
    ensures |Render(s)|
         == TextLength(Skeleton(TemplateText, s.disableLocal))
            + |s.hostname| + |s.adminUser| + |s.adminPassword| + |s.tenantId| + |s.clientId|
            + (if s.disableLocal then |s.adminUser| else 0)
  {
    LayoutLength(TemplateText, s);
  }

}
