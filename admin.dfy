/**
 * The admin side of the kiosk: the configuration defaults, the PIN login
 * that sets the session's `authenticated` flag, logout, and the endpoints
 * that change state (settings, inspirations, image and spreadsheet uploads),
 * each of which refuses with 401 and changes nothing unless the flag is set.
 */
module Admin {
  import opened Wrappers
  import opened Uploads

  /** The parsed `config.json`. */
  datatype Config = Config(adminPin: string, rotationInterval: int, refreshInterval: int)

  /** `load_config`: the file's contents, or the built-in defaults when there is no file. */
  function LoadConfig(file: Option<Config>): (c: Config)
    ensures file.Some? ==> c == file.value
    ensures file.None? ==> c.adminPin == "7456" && c.rotationInterval == 30 && c.refreshInterval == 300
  {
    match file
    case Some(config) => config
    case None => Config("7456", 30, 300)
  }

  /** A JSON request body: an object whose values are strings. */
  type Payload = map<string, string>

  /** The settings `update_settings` may write; any other key of the body is ignored. */
  const SettingKeys: set<string> := {"header_title", "footer_note", "about_text"}

  /** Whether the body (`request.json`) carries `key`. */
  predicate Carries(data: Option<Payload>, key: string) {
    data.Some? && key in data.value
  }

  /** `if data and key in data: update_setting(key, data[key])`. */
  function SetIfCarried(settings: map<string, string>, data: Option<Payload>, key: string): map<string, string> {
    if Carries(data, key) then settings[key := data.value[key]] else settings
  }

  /** The settings after `update_settings`: header title, footer note and about text, in that order. */
  function ApplySettings(settings: map<string, string>, data: Option<Payload>): (r: map<string, string>)
    ensures forall k :: k in SettingKeys && Carries(data, k) ==> k in r && r[k] == data.value[k]
    ensures forall k :: !(k in SettingKeys && Carries(data, k)) ==>
              (k in r <==> k in settings) && (k in settings ==> r[k] == settings[k])
  {
    var s1 := SetIfCarried(settings, data, "header_title");
    var s2 := SetIfCarried(s1, data, "footer_note");
    SetIfCarried(s2, data, "about_text")
  }

  /** Sending the same body twice changes nothing the first sending did not. */
  lemma ApplySettingsIdempotent(settings: map<string, string>, data: Option<Payload>)
    ensures ApplySettings(ApplySettings(settings, data), data) == ApplySettings(settings, data)
  {
    var once := ApplySettings(settings, data);
    var twice := ApplySettings(once, data);
    assert forall k :: k in twice <==> k in once;
  }

  /** A body without any of the three keys (or no body at all) leaves the settings as they were. */
  lemma ApplySettingsWithoutKeys(settings: map<string, string>, data: Option<Payload>)
    requires forall k :: k in SettingKeys ==> !Carries(data, k)
    ensures ApplySettings(settings, data) == settings
  {
    var r := ApplySettings(settings, data);
    assert forall k :: k in r <==> k in settings;
  }

  /** One row of the `inspirations` table. */
  datatype Inspiration = Inspiration(title: string, description: string, imageUrl: string)

  /** `data.get(key, '')` on `request.json or {}`. */
  function Field(data: Option<Payload>, key: string): (v: string)
    ensures Carries(data, key) ==> v == data.value[key]
    ensures !Carries(data, key) ==> v == ""
  {
    if Carries(data, key) then data.value[key] else ""
  }

  /** The inspiration `add_inspiration` inserts for a body. */
  function InspirationOf(data: Option<Payload>): Inspiration {
    Inspiration(Field(data, "title"), Field(data, "description"), Field(data, "image_url"))
  }

  /**
   * The stored inspiration reads only the body's "title", "description" and
   * "image_url": no body stores three empty fields, and two bodies that agree on
   * those keys store the same inspiration whatever else they carry.
   */
  lemma InspirationOfKeys(data: Option<Payload>, other: Option<Payload>)
    requires forall k :: k in ["title", "description", "image_url"] ==>
               Carries(data, k) == Carries(other, k) && (Carries(data, k) ==> data.value[k] == other.value[k])
    ensures InspirationOf(None) == Inspiration("", "", "")
    ensures InspirationOf(data) == InspirationOf(other)
  {
    assert "title" in ["title", "description", "image_url"];
    assert "description" in ["title", "description", "image_url"];
    assert "image_url" in ["title", "description", "image_url"];
  }

  /** One entry of `request.files`: the client's file name (possibly missing) and the bytes. */
  datatype UploadedFile = UploadedFile(filename: Option<string>, content: seq<bv8>)

  /** What an endpoint sends back. */
  datatype Reply =
    | Redirect(location: string)
      /** `admin.html` without the panel, with the error message if there is one. */
    | LoginForm(error: Option<string>)
      /** `admin.html` with the panel: the three settings (`None` when unset) and the inspirations. */
    | Panel(headerTitle: Option<string>, footerNote: Option<string>, aboutText: Option<string>,
            inspirations: map<nat, Inspiration>)
    | Success
    | ImageSaved(url: string, filename: string)
    | SpreadsheetSaved(message: string, filename: string)
    | Failure(status: nat, message: string)

  const Unauthorized: Reply := Failure(401, "Brak autoryzacji")
  const NoFile: Reply := Failure(400, "Brak pliku")
  const NoFileChosen: Reply := Failure(400, "Nie wybrano pliku")
  const WrongImageType: Reply := Failure(400, "Niedozwolony typ pliku")
  const WrongSpreadsheetType: Reply := Failure(400, "Niedozwolony typ pliku - wymagany plik .xlsx lub .xls")
  const WrongPin: string := "Nieprawidłowy PIN!"

  function Lookup(settings: map<string, string>, key: string): Option<string> {
    if key in settings then Some(settings[key]) else None
  }

  /**
   * One browser session together with the state the kiosk keeps for it: the
   * session's `authenticated` flag, the settings table, the inspirations
   * table (keyed by id, with the next id AUTOINCREMENT will hand out), the
   * image folder and the spreadsheet file.
   */
  class Kiosk {
    var authenticated: bool
    var settings: map<string, string>
    var inspirations: map<nat, Inspiration>
    var nextId: nat
    var images: map<string, seq<bv8>>
    var spreadsheet: Option<seq<bv8>>

    /** Every id in use was handed out before `nextId`. */
    predicate Valid()
      reads this
    {
      forall id :: id in inspirations ==> id < nextId
    }

    /** A new session, not logged in, over the kiosk's stored state. */
    constructor(settings: map<string, string>, inspirations: map<nat, Inspiration>, nextId: nat,
                images: map<string, seq<bv8>>, spreadsheet: Option<seq<bv8>>)
      requires forall id :: id in inspirations ==> id < nextId
      ensures Valid() && !authenticated
      ensures this.settings == settings && this.inspirations == inspirations && this.nextId == nextId
      ensures this.images == images && this.spreadsheet == spreadsheet
    {
      this.authenticated := false;
      this.settings := settings;
      this.inspirations := inspirations;
      this.nextId := nextId;
      this.images := images;
      this.spreadsheet := spreadsheet;
    }

    /**
     * POST `/admin`: the PIN of the configuration logs the session in and
     * redirects to the panel; any other PIN, or none, shows the form with
     * an error and leaves the session as it was.
     */
    method Login(pin: Option<string>, configFile: Option<Config>) returns (reply: Reply)
      requires Valid()
      modifies this`authenticated
      ensures Valid()
      ensures pin == Some(LoadConfig(configFile).adminPin) ==> authenticated && reply == Redirect("/admin")
      ensures pin != Some(LoadConfig(configFile).adminPin) ==>
                authenticated == old(authenticated) && reply == LoginForm(Some(WrongPin))
    {
      var config := LoadConfig(configFile);
      if pin == Some(config.adminPin) {
        authenticated := true;
        return Redirect("/admin");
      }
      return LoginForm(Some(WrongPin));
    }

    /** GET `/admin`: the login form for a session that is not logged in, otherwise the panel. */
    method AdminPage() returns (reply: Reply)
      ensures !authenticated ==> reply == LoginForm(None)
      ensures authenticated ==> reply.Panel? && reply.inspirations == inspirations
      ensures authenticated ==>
                (reply.headerTitle.Some? <==> "header_title" in settings)
                && (reply.headerTitle.Some? ==> reply.headerTitle.value == settings["header_title"])
      ensures authenticated ==>
                (reply.footerNote.Some? <==> "footer_note" in settings)
                && (reply.footerNote.Some? ==> reply.footerNote.value == settings["footer_note"])
      ensures authenticated ==>
                (reply.aboutText.Some? <==> "about_text" in settings)
                && (reply.aboutText.Some? ==> reply.aboutText.value == settings["about_text"])
    {
      if !authenticated {
        return LoginForm(None);
      }
      reply := Panel(Lookup(settings, "header_title"), Lookup(settings, "footer_note"),
                     Lookup(settings, "about_text"), inspirations);
    }

    /** `/admin/logout`: drops the flag and redirects to the login form. */
    method Logout() returns (reply: Reply)
      requires Valid()
      modifies this`authenticated
      ensures Valid()
      ensures !authenticated && reply == Redirect("/admin")
    {
      authenticated := false;
      reply := Redirect("/admin");
    }

    /** POST `/api/settings`: writes the carried settings among the three, and nothing else. */
    method UpdateSettings(data: Option<Payload>) returns (reply: Reply)
      requires Valid()
      modifies this`settings
      ensures Valid()
      ensures !authenticated ==> reply == Unauthorized && settings == old(settings)
      ensures authenticated ==> reply == Success && settings == ApplySettings(old(settings), data)
    {
      if !authenticated {
        return Unauthorized;
      }
      if Carries(data, "header_title") {
        settings := settings["header_title" := data.value["header_title"]];
      }
      if Carries(data, "footer_note") {
        settings := settings["footer_note" := data.value["footer_note"]];
      }
      if Carries(data, "about_text") {
        settings := settings["about_text" := data.value["about_text"]];
      }
      reply := Success;
    }

    /** POST `/api/inspiration`: inserts the body's inspiration under a fresh id. */
    method AddInspiration(data: Option<Payload>) returns (reply: Reply)
      requires Valid()
      modifies this`inspirations, this`nextId
      ensures Valid()
      ensures !authenticated ==> reply == Unauthorized && inspirations == old(inspirations) && nextId == old(nextId)
      ensures authenticated ==>
                reply == Success && old(nextId) !in old(inspirations)
                && inspirations == old(inspirations)[old(nextId) := InspirationOf(data)]
                && nextId == old(nextId) + 1
    {
      if !authenticated {
        return Unauthorized;
      }
      var title := Field(data, "title");
      var description := Field(data, "description");
      var imageUrl := Field(data, "image_url");
      inspirations := inspirations[nextId := Inspiration(title, description, imageUrl)];
      nextId := nextId + 1;
      reply := Success;
    }

    /** DELETE `/api/inspiration/<id>`: removes that inspiration, if there is one; succeeds either way. */
    method DeleteInspiration(id: nat) returns (reply: Reply)
      requires Valid()
      modifies this`inspirations
      ensures Valid()
      ensures !authenticated ==> reply == Unauthorized && inspirations == old(inspirations)
      ensures authenticated ==> reply == Success && inspirations == old(inspirations) - {id}
    {
      if !authenticated {
        return Unauthorized;
      }
      inspirations := inspirations - {id};
      reply := Success;
    }

    /**
     * POST `/api/upload`: saves an image with an allowed extension under
     * `storedName`, the sanitised and timestamped name the server picks.
     */
    method UploadImage(file: Option<UploadedFile>, storedName: string) returns (reply: Reply)
      requires Valid()
      modifies this`images
      ensures Valid()
      ensures !authenticated ==> reply == Unauthorized && images == old(images)
      ensures authenticated && file.None? ==> reply == NoFile && images == old(images)
      ensures authenticated && file.Some? && file.value.filename in {None, Some("")} ==>
                reply == NoFileChosen && images == old(images)
      ensures (authenticated && file.Some? && file.value.filename.Some? && file.value.filename.value != ""
               && !AllowedFile(file.value.filename.value)) ==> reply == WrongImageType && images == old(images)
      ensures authenticated && file.Some? && file.value.filename.Some? && AllowedFile(file.value.filename.value) ==>
                reply == ImageSaved(ImagesUrl + storedName, storedName)
                && images == old(images)[storedName := file.value.content]
    {
      if !authenticated {
        return Unauthorized;
      }
      if file.None? {
        return NoFile;
      }
      var f := file.value;
      if f.filename == Some("") || f.filename.None? {
        return NoFileChosen;
      }
      if AllowedFile(f.filename.value) {
        images := images[storedName := f.content];
        return ImageSaved(ImagesUrl + storedName, storedName);
      }
      return WrongImageType;
    }

    /** POST `/api/upload-excel`: saves a `.xlsx` or `.xls` upload as the spreadsheet, replacing the old one. */
    method UploadSpreadsheet(file: Option<UploadedFile>) returns (reply: Reply)
      requires Valid()
      modifies this`spreadsheet
      ensures Valid()
      ensures !authenticated ==> reply == Unauthorized && spreadsheet == old(spreadsheet)
      ensures authenticated && file.None? ==> reply == NoFile && spreadsheet == old(spreadsheet)
      ensures authenticated && file.Some? && file.value.filename in {None, Some("")} ==>
                reply == NoFileChosen && spreadsheet == old(spreadsheet)
      ensures (authenticated && file.Some? && file.value.filename.Some? && file.value.filename.value != ""
               && !IsExcelName(file.value.filename.value)) ==>
                reply == WrongSpreadsheetType && spreadsheet == old(spreadsheet)
      ensures (authenticated && file.Some? && file.value.filename.Some? && file.value.filename.value != ""
               && IsExcelName(file.value.filename.value)) ==>
                reply == SpreadsheetSaved("Plik Export.xlsx został zaktualizowany", "Export.xlsx")
                && spreadsheet == Some(file.value.content)
    {
      if !authenticated {
        return Unauthorized;
      }
      if file.None? {
        return NoFile;
      }
      var f := file.value;
      if f.filename == Some("") || f.filename.None? {
        return NoFileChosen;
      }
      if IsExcelName(f.filename.value) {
        spreadsheet := Some(f.content);
        return SpreadsheetSaved("Plik Export.xlsx został zaktualizowany", "Export.xlsx");
      }
      return WrongSpreadsheetType;
    }
  }
}
