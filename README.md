# Entra ID Ubuntu configuration generator — Dafny model

The repository is a static web page that writes an Ubuntu autoinstall / cloud-init
`user-data` file for devices that sign in with Microsoft Entra ID through AuthD. Its
core is `generateConfig` in `script.js`. This function reads six form fields: tenant ID,
client ID, hostname, admin user, password hash and the "disable local admin" checkbox.
It then:

- trims the text fields with JavaScript's `String.prototype.trim`;
- replaces a blank hostname, admin user or password hash with a fixed default;
- refuses to generate unless both the tenant ID and the client ID are non-blank;
- otherwise, inserts the values verbatim into one YAML template literal. A nested
  template literal, chosen by the checkbox, either locks the admin account or leaves
  a comment.

The model treats `generateConfig` as a pure function from the raw form values to
`Option<string>`. `None` stands for the refusal, and `Some(doc)` is the document the
page shows.

- `wrappers.dfy` — `Option`.
- `js_string.dfy` (`JsString`) — JavaScript's whitespace set (WhiteSpace and
  LineTerminator), `Trim` and its laws. It also holds the line vocabulary the
  document lemmas use:
  - `HasLine(doc, l)`: `l` stands on whole lines of `doc`;
  - `StartsWith` and `EndsWith`.
- `user_data.dfy` (`UserData`):
  - the form (`FormInput`) and the effective values (`Settings`);
  - `TrimOr` (`raw.trim() || fallback`), `Resolve` and `Generate`;
  - the template text (`Texts`, `TemplateText`) and its layout, `Layout` and `Render`.

  The layout lemmas hold for any template text and are about `Layout`. The
  `Generated…` lemmas say what a generated document contains, in terms of the raw
  form.
- `interpolation.dfy` (`Interpolation`) — an independent description of the document
  as the template literal: fixed text pieces and value slots (`Template`), filled in
  by `Fill`. The lemmas prove that the layout is that fill, and that the document's
  length is the fixed text plus the values.

The project's documentation says the tenant and client IDs are checked as GUIDs. The
code (`script.js:25`) only checks that they are non-blank after trimming. The model
follows the code: `AcceptsNonGuidIdentifiers` shows that an identifier that is not a
GUID is accepted.

## Model

| member | source | states |
|---|---|---|
| JsString.Trim | script.js:13-16 | The trimmed text neither starts nor ends with JavaScript whitespace. It is empty exactly when the input is all whitespace. |
| JsString.TrimDecompose | script.js:13-16 | Every input is whitespace, then its trimmed text, then whitespace. |
| JsString.TrimPadding | script.js:13-16 | Trimming an already trimmed text wrapped in whitespace gives back exactly that text. |
| JsString.TrimAbsorbsWhitespace | script.js:13-16 | Whitespace added on either side of a value does not change its trimmed text. |
| JsString.TrimIdempotent | script.js:13-16 | Trimming twice gives the same text as trimming once. |
| UserData.TrimOr | script.js:15-16 | `raw.trim() \|\| fallback`: a non-blank value becomes its trimmed text, which is non-empty and never replaced. A blank value becomes the fallback. The result is trimmed and non-empty whenever the fallback is. |
| UserData.Resolve | script.js:13-23 | Tenant and client IDs are trimmed. Hostname, admin user and password are trimmed, or set to `ubuntu-entra-device`, `localadmin` and `$6$rounds=4096$randomsalt$6q...` when blank. The checkbox is copied. |
| UserData.EffectiveValuesTrimmed | script.js:15-22 | The effective hostname, admin user and password are always non-empty and trimmed, whether typed or defaulted. |
| UserData.Generate | script.js:25-28 | Refused exactly when the trimmed tenant ID or client ID is empty; every other input is accepted. An accepted document is the template filled in with the effective values. |
| UserData.LayoutBlocks | script.js:30-101 | The identity lines, the OIDC lines and the conditional segment each stand on whole lines of the document. |
| UserData.LayoutIdentity | script.js:37-40 | The hostname line, the username line and the quoted password line are each a whole line. |
| UserData.LayoutOidc | script.js:68-70 | The issuer line holds the tenant ID and is followed directly by the client_id line. |
| UserData.LayoutLockSegment | script.js:95-97 | With the checkbox set, the lock heading, the note and `passwd -l` for the admin user are each a line. |
| UserData.LayoutKeepSegment | script.js:97 | With the checkbox clear, the indented keep comment is a line. |
| UserData.LayoutHeader | script.js:30-32 | The document starts with the header text. |
| UserData.LayoutLockIsLast | script.js:95-101 | With the checkbox set, the document ends with the lock command followed only by the closing text. |
| UserData.LayoutAroundSegment | script.js:30-101 | The document is the leading text, then the conditional segment, then a line feed and the closing text. |
| UserData.FlagOnlyChangesSegment | script.js:95-97 | Changing the checkbox changes only the conditional segment. The text before and after it stays the same. |
| UserData.GeneratedHeader | script.js:30-32 | Every generated document starts with `#cloud-config`, `autoinstall:` and `  version: 1`. |
| UserData.GeneratedIdentifiers | script.js:69-70 | The issuer URL line holds the trimmed tenant ID, and the next line is `client_id = ` with the trimmed client ID. |
| UserData.GeneratedIssuer | script.js:69 | The issuer URL line holds the trimmed tenant ID between the login host and `/v2.0`. |
| UserData.GeneratedClientId | script.js:70 | The client_id line holds the trimmed client ID. |
| UserData.GeneratedHostname | script.js:38 | The hostname line holds the effective hostname. |
| UserData.GeneratedUsername | script.js:39 | The username line holds the effective admin user. |
| UserData.GeneratedPassword | script.js:40 | The password line holds the effective password in double quotes. |
| UserData.GeneratedDefaultHostname | script.js:15 | A blank hostname gives the line `    hostname: ubuntu-entra-device`. |
| UserData.GeneratedDefaultAdminUser | script.js:16 | A blank admin user gives the line `    username: localadmin`. |
| UserData.GeneratedDefaultPassword | script.js:22 | A blank password gives the placeholder hash, in quotes, on the password line. |
| UserData.GeneratedLockCommand | script.js:95-97 | With the checkbox set, `passwd -l` locks the same effective admin user that the username line creates. |
| UserData.GeneratedLockIsLast | script.js:95-101 | With the checkbox set, only a blank line and the two reboot comments follow the lock command. |
| UserData.GeneratedKeepComment | script.js:97 | With the checkbox clear, `# Local admin account remains active` is a line. |
| UserData.GeneratedLockSegment | script.js:95-101 | With the checkbox set, the document is the leading text, the lock comments with the lock command for the effective admin user, and the closing text. |
| UserData.GeneratedKeepSegment | script.js:95-101 | With the checkbox clear, the document is the same leading text, exactly `# Local admin account remains active`, and the closing text. |
| UserData.GenerateIgnoresPadding | script.js:13-22 | Adding whitespace around all five text fields changes neither the verdict nor the document. |
| UserData.ExampleAccepted | script.js:25-28 | A typical form is accepted: two GUIDs, blank optional fields, lock enabled. |
| UserData.AcceptsNonGuidIdentifiers | script.js:25 | Identifiers that are not GUIDs are accepted. Only blankness is checked. |
| Interpolation.FillLength | script.js:30-101 | Filling a template produces exactly its fixed text plus the values. |
| Interpolation.LayoutIsFill | script.js:30-101 | The document equals the template literal with every `${…}` slot replaced verbatim by its value. The nested literal of the lock branch is spliced in. |
| Interpolation.RenderIsFill | script.js:30-101 | The same, for the script's own template text. The fixed text depends only on the checkbox. |
| Interpolation.LayoutLength | script.js:30-101 | The document's length is the template's fixed-text length plus the length of each value. The admin user counts twice when the lock command names it. |
| Interpolation.DocumentLength | script.js:30-101 | The same, for the script's own template text. |

## Left out

- Reading the form from the DOM, writing the result into the page and showing the
  output section (`script.js:1-11`, `script.js:103-106`) are interface code. The model
  takes the raw field values and the checkbox as inputs and returns the document.
- The `alert` on refusal (`script.js:26`) is modelled only as the `None` result.
- `copyToClipboard` and `downloadFile` are browser I/O: clipboard, Blob and download
  link.
- The `defaultHash` constant (`script.js:18`) is never used by the code, so it is
  not modelled. The password default is the literal on line 22.
- JavaScript strings are UTF-16 code units. The model's `char` is a Unicode scalar
  value, so lone surrogates cannot be represented. `trim` only removes characters of
  the Basic Multilingual Plane, so nothing else changes.
- GUID validation of the identifiers, a meta-data file, a dark mode and a reset
  action are not in the code, so none of them is modelled.
- ExampleAccepted: states only that the typical form is accepted. Its document's
  default hostname and user, and the final lock command, follow from
  GeneratedDefaultHostname, GeneratedDefaultAdminUser and GeneratedLockIsLast, whose
  requires this form meets. Those facts are not restated for the literal input.
