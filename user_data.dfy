/**
 * The configuration generator of the Entra ID Ubuntu provisioning page: it reads six
 * form values, trims the text ones, substitutes defaults for a blank hostname, admin
 * user and password hash, refuses to generate unless both the tenant ID and the client
 * ID are non-blank, and otherwise renders a cloud-init / Ubuntu autoinstall
 * `user-data` YAML document by inserting the values verbatim into a fixed template.
 */
module UserData {

  import opened Wrappers
  import opened JsString

  const DefaultHostname := "ubuntu-entra-device"
  const DefaultAdminUser := "localadmin"
  /** A placeholder shadow hash, not a usable credential. */
  const DefaultPasswordHash := "$6$rounds=4096$randomsalt$6q..."

  /** The form exactly as read from the page: five raw text values and the checkbox. */
  datatype FormInput = FormInput(
    tenantId: string,
    clientId: string,
    hostname: string,
    adminUser: string,
    adminPassword: string,
    disableLocal: bool)

  /** The values that are inserted into the template. */
  datatype Settings = Settings(
    tenantId: string,
    clientId: string,
    hostname: string,
    adminUser: string,
    adminPassword: string,
    disableLocal: bool)

  /**
   * `raw.trim() || fallback`: the trimmed value, unless trimming leaves nothing,
   * in which case the fallback. A non-blank value is never replaced.
   */
  function TrimOr(raw: string, fallback: string): (r: string)
    ensures !AllWhitespace(raw) ==> r == Trim(raw) && r != []
    ensures AllWhitespace(raw) ==> r == fallback
    ensures IsTrimmed(fallback) ==> IsTrimmed(r)
    ensures fallback != [] ==> r != []
  {
    var t := Trim(raw);
    if t != [] then t else fallback
  }

  /**
   * The effective values: the two identifiers trimmed, the other text values trimmed
   * or, when blank, replaced by their defaults.
   */
  function Resolve(input: FormInput): (s: Settings)
    ensures s.tenantId == Trim(input.tenantId) && s.clientId == Trim(input.clientId)
    ensures AllWhitespace(input.hostname) ==> s.hostname == DefaultHostname
    ensures !AllWhitespace(input.hostname) ==> s.hostname == Trim(input.hostname)
    ensures AllWhitespace(input.adminUser) ==> s.adminUser == DefaultAdminUser
    ensures !AllWhitespace(input.adminUser) ==> s.adminUser == Trim(input.adminUser)
    ensures AllWhitespace(input.adminPassword) ==> s.adminPassword == DefaultPasswordHash
    ensures !AllWhitespace(input.adminPassword) ==> s.adminPassword == Trim(input.adminPassword)
    ensures s.disableLocal == input.disableLocal
  {
    Settings(
      Trim(input.tenantId),
      Trim(input.clientId),
      TrimOr(input.hostname, DefaultHostname),
      TrimOr(input.adminUser, DefaultAdminUser),
      TrimOr(input.adminPassword, DefaultPasswordHash),
      input.disableLocal)
  }

  /**
   * Every effective hostname, admin user and password is non-empty and carries no
   * surrounding whitespace, whether it was typed or defaulted.
   */
  lemma EffectiveValuesTrimmed(input: FormInput)
    ensures var s := Resolve(input);
      && s.hostname != [] && s.adminUser != [] && s.adminPassword != []
      && IsTrimmed(s.hostname) && IsTrimmed(s.adminUser) && IsTrimmed(s.adminPassword)
  {
    DefaultsTrimmed();
  }

  lemma DefaultsTrimmed()
    ensures IsTrimmed(DefaultHostname) && IsTrimmed(DefaultAdminUser) && IsTrimmed(DefaultPasswordHash)
  {
  }

  /**
   * The fixed text of the template, cut where values are inserted and where the
   * lemmas below need a line break. Each block of lines that precedes a value line
   * leaves out its last line feed; the layout puts it back.
   */
  datatype Texts = Texts(
    header: string,
    identityIntro: string,
    hostnameKey: string,
    usernameKey: string,
    passwordKey: string,
    userDataIntro: string,
    issuerPrefix: string,
    issuerSuffix: string,
    clientIdKey: string,
    runcmdIntro: string,
    indent: string,
    lockHeading: string,
    lockNote: string,
    lockCommand: string,
    keepComment: string,
    epilogue: string)

  /** The text of the configuration generator's template. */
  const TemplateText := Texts(
    header :=
      "#cloud-config\n" +
      "autoinstall:\n" +
      "  version: 1\n",
    identityIntro :=
      "  interactive-sections:\n" +
      "    - identity # Optional: Remove this if you want fully automated (no prompts)\n" +
      "  \n" +
      "  # 1. Identity Configuration\n" +
      "  identity:",
    hostnameKey := "    hostname: ",
    usernameKey := "    username: ",
    passwordKey := "    password: \"",
    userDataIntro :=
      "    realname: Local Administrator\n" +
      "\n" +
      "  # 2. First Boot Configuration (Cloud-Init)\n" +
      "  user-data:\n" +
      "    package_update: true\n" +
      "    package_upgrade: true\n" +
      "\n" +
      "    # Add the AuthD PPA\n" +
      "    apt:\n" +
      "      sources:\n" +
      "        authd:\n" +
      "          source: \"ppa:ubuntu-enterprise-desktop/authd\"\n" +
      "\n" +
      "    # Install AuthD package\n" +
      "    packages:\n" +
      "      - authd\n" +
      "\n" +
      "    # Install Entra ID Broker Snap\n" +
      "    snap:\n" +
      "      commands:\n" +
      "        - [\"install\", \"authd-msentra\"]\n" +
      "\n" +
      "    # Create Configuration Files\n" +
      "    write_files:\n" +
      "      - path: /var/snap/authd-msentra/current/broker.conf\n" +
      "        permissions: '0600'\n" +
      "        content: |\n" +
      "          [oidc]",
    issuerPrefix := "          issuer = https://login.microsoftonline.com/",
    issuerSuffix := "/v2.0",
    clientIdKey := "          client_id = ",
    runcmdIntro :=
      "          \n" +
      "          [users]\n" +
      "          allowed_users = ALL\n" +
      "\n" +
      "      - path: /etc/gdm3/greeter.dconf-defaults\n" +
      "        append: true\n" +
      "        content: |\n" +
      "          \n" +
      "          [org/gnome/login-screen]\n" +
      "          disable-user-list=true\n" +
      "\n" +
      "    # Run Setup Commands\n" +
      "    runcmd:\n" +
      "      # 1. Configure AuthD Broker\n" +
      "      - mkdir -p /etc/authd/brokers.d/\n" +
      "      - cp /snap/authd-msentra/current/conf/authd/msentra.conf /etc/authd/brokers.d/\n" +
      "      \n" +
      "      # 2. Increase Login Timeout (for MFA)\n" +
      "      - sed -i 's/^LOGIN_TIMEOUT.*/LOGIN_TIMEOUT 120/' /etc/login.defs || echo \"LOGIN_TIMEOUT 120\" >> /etc/login.defs\n" +
      "\n" +
      "      # 3. Restart Services to apply changes\n" +
      "      - systemctl restart authd\n" +
      "      - snap restart authd-msentra\n",
    indent := "      ",
    lockHeading := "# 4. SECURITY: Lock the local admin account",
    lockNote := "      # This enforces Entra ID login only.",
    lockCommand := "      - passwd -l ",
    keepComment := "# Local admin account remains active",
    epilogue :=
      "      \n" +
      "      # 5. Optional: Reboot to ensure clean state\n" +
      "      # - reboot\n")

  /**
   * The conditional part of the run commands: with `disableLocal` a comment and the
   * command that locks the admin account, otherwise a single inert comment.
   */
  function LocalAccountSegment(k: Texts, disableLocal: bool, adminUser: string): string {
    if disableLocal then k.lockHeading + "\n" + k.lockNote + "\n" + k.lockCommand + adminUser
    else k.keepComment
  }

  function HostnameLine(k: Texts, s: Settings): string { k.hostnameKey + s.hostname }
  function UsernameLine(k: Texts, s: Settings): string { k.usernameKey + s.adminUser }
  function PasswordLine(k: Texts, s: Settings): string { k.passwordKey + s.adminPassword + "\"" }
  function IssuerLine(k: Texts, s: Settings): string { k.issuerPrefix + s.tenantId + k.issuerSuffix }
  function ClientIdLine(k: Texts, s: Settings): string { k.clientIdKey + s.clientId }

  /** The identity block's hostname, username and quoted password lines. */
  function IdentityLines(k: Texts, s: Settings): string {
    HostnameLine(k, s) + "\n" + UsernameLine(k, s) + "\n" + PasswordLine(k, s)
  }

  /** The issuer and client lines of the broker configuration. */
  function OidcLines(k: Texts, s: Settings): string {
    IssuerLine(k, s) + "\n" + ClientIdLine(k, s)
  }

  /** The indented conditional segment at the end of the run commands. */
  function LocalAccountLines(k: Texts, s: Settings): string {
    k.indent + LocalAccountSegment(k, s.disableLocal, s.adminUser)
  }

  /** The template text `k` filled in with the values of `s`; nothing is escaped. */
  function Layout(k: Texts, s: Settings): string {
    k.header + k.identityIntro + "\n"
    + IdentityLines(k, s) + "\n"
    + k.userDataIntro + "\n"
    + OidcLines(k, s) + "\n"
    + k.runcmdIntro + "\n"
    + LocalAccountLines(k, s) + "\n"
    + k.epilogue
  }

  /** The document for the effective values. */
  function Render(s: Settings): string {
    Layout(TemplateText, s)
  }

  /**
   * Generation from the raw form: refused (`None`) exactly when the tenant ID or the
   * client ID is blank after trimming; any other text is accepted, and the document
   * is the template filled in with the effective values.
   */
  function Generate(input: FormInput): (r: Option<string>)
    ensures r.None? <==> AllWhitespace(input.tenantId) || AllWhitespace(input.clientId)
    ensures r.Some? ==> r.value == Render(Resolve(input))
  {
    var s := Resolve(input);
    if s.tenantId == [] || s.clientId == [] then None else Some(Render(s))
  }

  // The layout of the document, for any template text.

  /** The three blocks that hold values occupy whole lines of the document. */
  lemma LayoutBlocks(k: Texts, s: Settings)
    ensures HasLine(Layout(k, s), IdentityLines(k, s))
    ensures HasLine(Layout(k, s), OidcLines(k, s))
    ensures HasLine(Layout(k, s), LocalAccountLines(k, s))
  {
    var p0 := k.header + k.identityIntro + "\n";
    var p1 := k.userDataIntro + "\n";
    var p2 := k.runcmdIntro + "\n";
    BlocksRegroup(p0, IdentityLines(k, s), k.userDataIntro, OidcLines(k, s), k.runcmdIntro,
                  LocalAccountLines(k, s), k.epilogue);
    ThreeLines(p0, IdentityLines(k, s), p1, OidcLines(k, s), p2, LocalAccountLines(k, s), k.epilogue);
  }

  lemma BlocksRegroup(p0: string, l1: string, t1: string, l2: string, t2: string, l3: string, p3: string)
    ensures p0 + l1 + "\n" + t1 + "\n" + l2 + "\n" + t2 + "\n" + l3 + "\n" + p3
         == p0 + l1 + "\n" + (t1 + "\n") + l2 + "\n" + (t2 + "\n") + l3 + "\n" + p3
  {
  }

  /**
   * The identity block carries the hostname, the admin user and the password on
   * consecutive lines, the password wrapped in double quotes.
   */
  lemma LayoutIdentity(k: Texts, s: Settings)
    ensures HasLine(Layout(k, s), HostnameLine(k, s))
    ensures HasLine(Layout(k, s), UsernameLine(k, s))
    ensures HasLine(Layout(k, s), PasswordLine(k, s))
  {
    LayoutBlocks(k, s);
    HasLineSplit3(Layout(k, s), HostnameLine(k, s), UsernameLine(k, s), PasswordLine(k, s));
  }

  /** The broker configuration names the tenant in the issuer URL and, on the next line, the client. */
  lemma LayoutOidc(k: Texts, s: Settings)
    ensures HasLine(Layout(k, s), IssuerLine(k, s) + "\n" + ClientIdLine(k, s))
    ensures HasLine(Layout(k, s), IssuerLine(k, s))
    ensures HasLine(Layout(k, s), ClientIdLine(k, s))
  {
    LayoutBlocks(k, s);
    HasLineSplit(Layout(k, s), IssuerLine(k, s), ClientIdLine(k, s));
  }

  /** With `disableLocal` the run commands end with a comment and the lock command. */
  lemma LayoutLockSegment(k: Texts, s: Settings)
    requires s.disableLocal
    ensures HasLine(Layout(k, s), k.indent + k.lockHeading)
    ensures HasLine(Layout(k, s), k.lockNote)
    ensures HasLine(Layout(k, s), k.lockCommand + s.adminUser)
  {
    LayoutBlocks(k, s);
    LockLines(k.indent, k.lockHeading, k.lockNote, k.lockCommand, s.adminUser);
    HasLineSplit3(Layout(k, s), k.indent + k.lockHeading, k.lockNote, k.lockCommand + s.adminUser);
  }

  /** Regrouping of the lock branch into its three lines. */
  lemma LockLines(indent: string, heading: string, note: string, command: string, user: string)
    ensures indent + (heading + "\n" + note + "\n" + command + user)
         == (indent + heading) + "\n" + note + "\n" + (command + user)
  {
  }

  /** Without `disableLocal` the segment is a single comment line. */
  lemma LayoutKeepSegment(k: Texts, s: Settings)
    requires !s.disableLocal
    ensures HasLine(Layout(k, s), k.indent + k.keepComment)
  {
    LayoutBlocks(k, s);
  }

  /** The document opens with the header text. */
  lemma LayoutHeader(k: Texts, s: Settings)
    ensures StartsWith(Layout(k, s), k.header)
  {
    FirstIsPrefix(k.header, k.identityIntro, "\n", IdentityLines(k, s), "\n", k.userDataIntro, "\n",
                  OidcLines(k, s), "\n", k.runcmdIntro, "\n", LocalAccountLines(k, s), "\n", k.epilogue);
  }

  /** With `disableLocal` the lock command is followed only by the closing text. */
  lemma LayoutLockIsLast(k: Texts, s: Settings)
    requires s.disableLocal
    ensures EndsWith(Layout(k, s), (k.lockCommand + s.adminUser) + "\n" + k.epilogue)
  {
    var front := k.header + k.identityIntro + "\n" + IdentityLines(k, s) + "\n" + k.userDataIntro + "\n"
                 + OidcLines(k, s) + "\n" + k.runcmdIntro + "\n";
    LockTail(front, k.indent, k.lockHeading, k.lockNote, k.lockCommand, s.adminUser, k.epilogue);
    EndsWithAppend(front + k.indent + k.lockHeading + "\n" + k.lockNote + "\n",
                   (k.lockCommand + s.adminUser) + "\n" + k.epilogue);
  }

  lemma LockTail(front: string, indent: string, heading: string, note: string, command: string,
                 user: string, epilogue: string)
    ensures front + (indent + (heading + "\n" + note + "\n" + command + user)) + "\n" + epilogue
         == (front + indent + heading + "\n" + note + "\n") + ((command + user) + "\n" + epilogue)
  {
  }

  /** The document up to the conditional segment; it does not depend on the flag. */
  function TextBeforeSegment(k: Texts, s: Settings): string {
    k.header + k.identityIntro + "\n" + IdentityLines(k, s) + "\n" + k.userDataIntro + "\n"
    + OidcLines(k, s) + "\n" + k.runcmdIntro + "\n" + k.indent
  }

  /** The document is the leading text, the conditional segment and the closing text. */
  lemma LayoutAroundSegment(k: Texts, s: Settings)
    ensures Layout(k, s)
         == TextBeforeSegment(k, s) + LocalAccountSegment(k, s.disableLocal, s.adminUser) + ("\n" + k.epilogue)
  {
    var front := k.header + k.identityIntro + "\n" + IdentityLines(k, s) + "\n" + k.userDataIntro + "\n"
                 + OidcLines(k, s) + "\n" + k.runcmdIntro + "\n";
    SegmentRegroup(front, k.indent, LocalAccountSegment(k, s.disableLocal, s.adminUser), k.epilogue);
  }

  lemma SegmentRegroup(front: string, indent: string, segment: string, epilogue: string)
    ensures front + (indent + segment) + "\n" + epilogue == front + indent + segment + ("\n" + epilogue)
  {
  }

  /**
   * The checkbox changes only the conditional segment: for either setting of the
   * flag the document is the same leading text, the segment, and the same closing
   * text.
   */
  lemma FlagOnlyChangesSegment(k: Texts, s: Settings, disableLocal: bool)
    ensures Layout(k, s.(disableLocal := disableLocal))
         == TextBeforeSegment(k, s) + LocalAccountSegment(k, disableLocal, s.adminUser) + ("\n" + k.epilogue)
  {
    var t := s.(disableLocal := disableLocal);
    assert t.disableLocal == disableLocal && t.adminUser == s.adminUser;
    assert TextBeforeSegment(k, t) == TextBeforeSegment(k, s);
    LayoutAroundSegment(k, t);
  }

  // What a generated document says about the raw form values.

  /** The generated document opens with the cloud-config marker and the version header. */
  lemma GeneratedHeader(input: FormInput)
    requires !AllWhitespace(input.tenantId) && !AllWhitespace(input.clientId)
    ensures StartsWith(Generate(input).value, "#cloud-config\n" + "autoinstall:\n" + "  version: 1\n")
  {
    LayoutHeader(TemplateText, Resolve(input));
  }

  /** The issuer URL and the client line carry the trimmed tenant and client IDs, in that order. */
  lemma GeneratedIdentifiers(input: FormInput)
    requires !AllWhitespace(input.tenantId) && !AllWhitespace(input.clientId)
    ensures HasLine(Generate(input).value,
      ("          issuer = https://login.microsoftonline.com/" + Trim(input.tenantId) + "/v2.0") + "\n" +
      ("          client_id = " + Trim(input.clientId)))
  {
    LayoutOidc(TemplateText, Resolve(input));
  }

  /** The issuer URL carries the trimmed tenant ID. */
  lemma GeneratedIssuer(input: FormInput)
    requires !AllWhitespace(input.tenantId) && !AllWhitespace(input.clientId)
    ensures HasLine(Generate(input).value,
      "          issuer = https://login.microsoftonline.com/" + Trim(input.tenantId) + "/v2.0")
  {
    LayoutOidc(TemplateText, Resolve(input));
  }

  /** The client line carries the trimmed client ID. */
  lemma GeneratedClientId(input: FormInput)
    requires !AllWhitespace(input.tenantId) && !AllWhitespace(input.clientId)
    ensures HasLine(Generate(input).value, "          client_id = " + Trim(input.clientId))
  {
    LayoutOidc(TemplateText, Resolve(input));
  }

  /** The identity block carries the effective hostname. */
  lemma GeneratedHostname(input: FormInput)
    requires !AllWhitespace(input.tenantId) && !AllWhitespace(input.clientId)
    ensures HasLine(Generate(input).value, "    hostname: " + Resolve(input).hostname)
  {
    LayoutIdentity(TemplateText, Resolve(input));
  }

  /** The identity block carries the effective admin user. */
  lemma GeneratedUsername(input: FormInput)
    requires !AllWhitespace(input.tenantId) && !AllWhitespace(input.clientId)
    ensures HasLine(Generate(input).value, "    username: " + Resolve(input).adminUser)
  {
    LayoutIdentity(TemplateText, Resolve(input));
  }

  /** The identity block carries the effective password, in double quotes. */
  lemma GeneratedPassword(input: FormInput)
    requires !AllWhitespace(input.tenantId) && !AllWhitespace(input.clientId)
    ensures HasLine(Generate(input).value, "    password: \"" + Resolve(input).adminPassword + "\"")
  {
    LayoutIdentity(TemplateText, Resolve(input));
  }

  /** A blank hostname shows up in the document as the default hostname. */
  lemma GeneratedDefaultHostname(input: FormInput)
    requires !AllWhitespace(input.tenantId) && !AllWhitespace(input.clientId) && AllWhitespace(input.hostname)
    ensures HasLine(Generate(input).value, "    hostname: " + "ubuntu-entra-device")
  {
    GeneratedHostname(input);
  }

  /** A blank admin user shows up in the document as the default user name. */
  lemma GeneratedDefaultAdminUser(input: FormInput)
    requires !AllWhitespace(input.tenantId) && !AllWhitespace(input.clientId) && AllWhitespace(input.adminUser)
    ensures HasLine(Generate(input).value, "    username: " + "localadmin")
  {
    GeneratedUsername(input);
  }

  /** A blank password shows up in the document as the placeholder hash, in quotes. */
  lemma GeneratedDefaultPassword(input: FormInput)
    requires !AllWhitespace(input.tenantId) && !AllWhitespace(input.clientId) && AllWhitespace(input.adminPassword)
    ensures HasLine(Generate(input).value, "    password: \"" + "$6$rounds=4096$randomsalt$6q..." + "\"")
  {
    GeneratedPassword(input);
  }

  /**
   * With `disableLocal` the document locks the same admin account that its identity
   * block creates.
   */
  lemma GeneratedLockCommand(input: FormInput)
    requires !AllWhitespace(input.tenantId) && !AllWhitespace(input.clientId) && input.disableLocal
    ensures HasLine(Generate(input).value, "      - passwd -l " + Resolve(input).adminUser)
  {
    LayoutLockSegment(TemplateText, Resolve(input));
  }

  /**
   * With `disableLocal` the lock command is the last command of the document: only
   * a blank line and comments follow it.
   */
  lemma GeneratedLockIsLast(input: FormInput)
    requires !AllWhitespace(input.tenantId) && !AllWhitespace(input.clientId) && input.disableLocal
    ensures EndsWith(Generate(input).value, ("      - passwd -l " + Resolve(input).adminUser) + "\n" +
      ("      \n" + "      # 5. Optional: Reboot to ensure clean state\n" + "      # - reboot\n"))
  {
    LayoutLockIsLast(TemplateText, Resolve(input));
  }

  /** Without `disableLocal` the document only says that the account stays active. */
  lemma GeneratedKeepComment(input: FormInput)
    requires !AllWhitespace(input.tenantId) && !AllWhitespace(input.clientId) && !input.disableLocal
    ensures HasLine(Generate(input).value, "      " + "# Local admin account remains active")
  {
    LayoutKeepSegment(TemplateText, Resolve(input));
  }

  /**
   * With `disableLocal` the conditional segment of a generated document is the lock
   * comments and the lock command for the effective admin user.
   */
  lemma GeneratedLockSegment(input: FormInput)
    requires !AllWhitespace(input.tenantId) && !AllWhitespace(input.clientId) && input.disableLocal
    ensures Generate(input).value
         == TextBeforeSegment(TemplateText, Resolve(input))
            + ("# 4. SECURITY: Lock the local admin account" + "\n" +
               "      # This enforces Entra ID login only." + "\n" +
               "      - passwd -l " + Resolve(input).adminUser)
            + ("\n" + ("      \n" + "      # 5. Optional: Reboot to ensure clean state\n" + "      # - reboot\n"))
  {
    LayoutAroundSegment(TemplateText, Resolve(input));
  }

  /**
   * Without `disableLocal` the conditional segment of a generated document is
   * exactly the comment that the account remains active, between the same texts.
   */
  lemma GeneratedKeepSegment(input: FormInput)
    requires !AllWhitespace(input.tenantId) && !AllWhitespace(input.clientId) && !input.disableLocal
    ensures Generate(input).value
         == TextBeforeSegment(TemplateText, Resolve(input))
            + "# Local admin account remains active"
            + ("\n" + ("      \n" + "      # 5. Optional: Reboot to ensure clean state\n" + "      # - reboot\n"))
  {
    LayoutAroundSegment(TemplateText, Resolve(input));
  }

  /** The form with the same whitespace added around each of its five text values. */
  function Padded(input: FormInput, w1: string, w2: string): FormInput {
    input.(tenantId := w1 + input.tenantId + w2,
           clientId := w1 + input.clientId + w2,
           hostname := w1 + input.hostname + w2,
           adminUser := w1 + input.adminUser + w2,
           adminPassword := w1 + input.adminPassword + w2)
  }

  /** Whitespace around the typed values changes neither the verdict nor the document. */
  lemma GenerateIgnoresPadding(input: FormInput, w1: string, w2: string)
    requires AllWhitespace(w1) && AllWhitespace(w2)
    ensures Generate(Padded(input, w1, w2)) == Generate(input)
  {
    TrimAbsorbsWhitespace(w1, input.tenantId, w2);
    TrimAbsorbsWhitespace(w1, input.clientId, w2);
    TrimAbsorbsWhitespace(w1, input.hostname, w2);
    TrimAbsorbsWhitespace(w1, input.adminUser, w2);
    TrimAbsorbsWhitespace(w1, input.adminPassword, w2);
    assert Resolve(Padded(input, w1, w2)) == Resolve(input);
  }

  /** A typical form: two GUIDs, the optional fields blank, the lock enabled. */
  const ExampleInput := FormInput("11111111-1111-1111-1111-111111111111",
                                  "22222222-2222-2222-2222-222222222222", "", "", "", true)

  /** The typical form is accepted. */
  lemma ExampleAccepted()
    ensures Generate(ExampleInput).Some?
  {
    assert !IsJsWhitespace(ExampleInput.tenantId[0]) && !IsJsWhitespace(ExampleInput.clientId[0]);
  }

  /** Only blankness is checked: identifiers that are not GUIDs are accepted as they are. */
  lemma AcceptsNonGuidIdentifiers()
    ensures Generate(FormInput("contoso", "not a guid", "", "", "", false)).Some?
  {
    var input := FormInput("contoso", "not a guid", "", "", "", false);
    assert !IsJsWhitespace(input.tenantId[0]) && !IsJsWhitespace(input.clientId[0]);
  }

}
