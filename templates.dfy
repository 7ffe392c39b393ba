/**
 * Templates: choosing a colour template by name, and the default template
 * bundle that rewrites the class defaults of the string-cosmology objects.
 *
 * Importing a Python module is a global side effect: the interpreter runs
 * the module once and remembers it. `Interpreter` keeps the list of modules
 * loaded so far, and the set of module paths that would import without an
 * error; the class defaults the templates write are the fields of
 * `ClassDefaults`.
 */
module Templates {
  import opened Python
  import opened Style
  import AdsJc
  import BlackHole
  import Bubble

  // ---------------------------------------------------------------------
  // Name resolution (`import_string_cosmo_template`)

  /** The template names the loader accepts, in the order it lists them. */
  const Allowed: seq<string> := [
    "cosmic_dawn", "quantum_dusk", "dark_energy", "green_mint",
    "blue_ice", "red_autumn", "beamer_blue", "beamer_green"
  ]

  const FallbackName: string := "default_template"
  const CollectionPath: string := "manim_string_cosmo.templates.collection."

  /** The module the loader imports for `name`: its own module when the name
      is allowed, the default template for every other name. */
  function TemplateModule(name: string): string
  {
    if name in Allowed then CollectionPath + name else CollectionPath + FallbackName
  }

  /** The nine collection modules a call can ever import. */
  function CollectionModules(): (ms: seq<string>)
    ensures |ms| == |Allowed| + 1
  {
    seq(|Allowed| + 1, i requires 0 <= i <= |Allowed| =>
      CollectionPath + (if i < |Allowed| then Allowed[i] else FallbackName))
  }

  /** Eight distinct names are accepted, and the fallback is not among them:
      asking for "default_template" by name takes the fallback branch. */
  lemma AllowedNames()
    ensures |Allowed| == 8
    ensures forall i, j :: 0 <= i < j < |Allowed| ==> Allowed[i] != Allowed[j]
    ensures FallbackName !in Allowed
  {
  }

  /** An allowed name selects its own module; any other name, the default
      template's; and whatever the name, the module is one of the nine
      collection modules. */
  lemma ResolutionFallback(name: string)
    ensures name in Allowed ==> TemplateModule(name) == CollectionPath + name
    ensures name !in Allowed ==> TemplateModule(name) == CollectionPath + FallbackName
    ensures TemplateModule(name) in CollectionModules()
  {
    var ms := CollectionModules();
    if name in Allowed {
      var i :| 0 <= i < |Allowed| && Allowed[i] == name;
      assert ms[i] == TemplateModule(name);
    } else {
      assert ms[|Allowed|] == TemplateModule(name);
    }
  }

  /** Different allowed names select different modules, and no allowed name
      selects the default template. */
  lemma ResolutionInjective(n1: string, n2: string)
    requires n1 in Allowed
    ensures n2 in Allowed && n1 != n2 ==> TemplateModule(n1) != TemplateModule(n2)
    ensures TemplateModule(n1) != TemplateModule(FallbackName)
  {
    AllowedNames();
    if n2 in Allowed && n1 != n2 {
      assert TemplateModule(n1)[|CollectionPath|..] == n1;
      assert TemplateModule(n2)[|CollectionPath|..] == n2;
    }
    assert TemplateModule(n1)[|CollectionPath|..] == n1;
    assert TemplateModule(FallbackName)[|CollectionPath|..] == FallbackName;
  }

  // ---------------------------------------------------------------------
  // Name resolution (`import_template`, the older package)

  const OlderAllowed: seq<string> := ["fancy_mint", "dark_depths"]
  const OlderPath: string := "beanim.templates."
  const OlderFallback: string := "beanim.templates.template_0"

  /** What one call of `import_template` does: the module it tries to
      import, and the module it hands back, if any. */
  datatype ImportOutcome = ImportOutcome(attempted: string, returned: Option<string>)

  /** The older loader as written: an allowed name returns its module when
      the import succeeds and None when it raises ImportError; any other name
      imports the fallback module but returns None either way. */
  function ImportTemplate(name: string, available: set<string>): (r: ImportOutcome)
    ensures r.returned.Some? ==> r.returned.value == r.attempted && r.attempted in available
  {
    if name in OlderAllowed then
      var path := OlderPath + name;
      ImportOutcome(path, if path in available then Some(path) else None)
    else
      ImportOutcome(OlderFallback, None)
  }

  /** The loader as its documentation describes it: the fallback module is
      handed back like the chosen one when its import succeeds. */
  function ImportTemplateReturningFallback(name: string, available: set<string>): (r: ImportOutcome)
    ensures r.returned.Some? ==> r.returned.value == r.attempted && r.attempted in available
  {
    var path := if name in OlderAllowed then OlderPath + name else OlderFallback;
    ImportOutcome(path, if path in available then Some(path) else None)
  }

  /** As written, a name outside the list never gets a module back, even
      when the fallback import succeeds. */
  lemma FallbackNeverReturned(name: string, available: set<string>)
    requires name !in OlderAllowed
    ensures ImportTemplate(name, available) == ImportOutcome(OlderFallback, None)
  {
  }

  /** The concrete case: "B/W" with the fallback module present. */
  lemma FallbackDroppedExample()
    ensures ImportTemplate("B/W", {OlderFallback}).returned == None
    ensures ImportTemplateReturningFallback("B/W", {OlderFallback}).returned == Some(OlderFallback)
  {
    assert "B/W" !in OlderAllowed;
  }

  /** The corrected loader returns a module exactly when the import it tries
      succeeds, for every name; it tries the same module as the original and
      agrees with it on the allowed names. */
  lemma ReturnedIffImported(name: string, available: set<string>)
    ensures var r := ImportTemplateReturningFallback(name, available);
      r.returned.Some? <==> r.attempted in available
    ensures ImportTemplateReturningFallback(name, available).attempted == ImportTemplate(name, available).attempted
    ensures name in OlderAllowed ==> ImportTemplateReturningFallback(name, available) == ImportTemplate(name, available)
  {
  }

  /** The module `import_string_cosmo_template` falls back to. */
  const DefaultPath: string := CollectionPath + FallbackName

  /**
   * The interpreter's module table. `available` is the set of module paths
   * whose import succeeds; `loaded` lists the modules run so far, each once.
   * Running a template module writes the class defaults held in `defaults`:
   * the default template runs its own body, and any other module writes the
   * values `others` records for it (a module without an entry writes
   * nothing).
   */
  class Interpreter {
    const available: set<string>
    const others: map<string, Defaults>
    const defaults: ClassDefaults
    var loaded: seq<string>

    constructor (available: set<string>, others: map<string, Defaults>, defaults: ClassDefaults)
      ensures this.available == available && this.others == others && this.defaults == defaults
      ensures loaded == []
    {
      this.available := available;
      this.others := others;
      this.defaults := defaults;
      loaded := [];
    }

    /** What running module `path` writes, if anything. */
    function ModuleWrites(path: string): (w: Option<Defaults>)
      ensures path == DefaultPath ==> w == Some(Writes(DefaultBundle))
      ensures path != DefaultPath ==> (w.Some? <==> path in others)
    {
      if path == DefaultPath then Some(Writes(DefaultBundle))
      else if path in others then Some(others[path])
      else None
    }

    /** Runs module `path` unless it was already run; an import that cannot
        succeed raises ImportError (ModuleNotFoundError), loads nothing and
        writes nothing. A module already loaded is not run again, so its
        writes are not repeated. */
    method Import(path: string) returns (r: Result<string>)
      modifies this, defaults
      ensures r == if path in available then Ok(path) else Err(ImportError)
      ensures loaded == if path in available && path !in old(loaded) then old(loaded) + [path] else old(loaded)
      ensures defaults.current ==
        if path in available && path !in old(loaded) && ModuleWrites(path).Some? then ModuleWrites(path).value
        else old(defaults.current)
    {
      if path !in available {
        return Err(ImportError);
      }
      if path !in loaded {
        loaded := loaded + [path];
        if path == DefaultPath {
          defaults.RunDefaultTemplate();
        } else if path in others {
          defaults.Apply(others[path]);
        }
      }
      r := Ok(path);
    }

    /** `import_string_cosmo_template`: imports the resolved module; the call
        gives back nothing, and only a missing module makes it fail. The
        first import of the chosen template applies its writes to every
        object built afterwards; any name outside the list applies the
        default template's. */
    method ImportStringCosmoTemplate(name: string) returns (r: Result<()>)
      modifies this, defaults
      ensures r == if TemplateModule(name) in available then Ok(()) else Err(ImportError)
      ensures var path := TemplateModule(name);
        loaded == if path in available && path !in old(loaded) then old(loaded) + [path] else old(loaded)
      ensures var path := TemplateModule(name);
        defaults.current ==
          if path in available && path !in old(loaded) && ModuleWrites(path).Some? then ModuleWrites(path).value
          else old(defaults.current)
      ensures name !in Allowed && DefaultPath in available && DefaultPath !in old(loaded) ==>
        defaults.current == Writes(DefaultBundle) == Factory(White)
    {
      DefaultTemplateOnlySetsBackground();
      var imported := Import(TemplateModule(name));
      r := if imported.Ok? then Ok(()) else Err(ImportError);
    }

    /** `import_template`: tries one module, and never lets ImportError out. */
    method ImportTemplateCall(name: string) returns (imported: Option<string>)
      modifies this, defaults
      ensures imported == ImportTemplate(name, available).returned
      ensures var path := ImportTemplate(name, available).attempted;
        loaded == if path in available && path !in old(loaded) then old(loaded) + [path] else old(loaded)
      ensures var path := ImportTemplate(name, available).attempted;
        defaults.current ==
          if path in available && path !in old(loaded) && ModuleWrites(path).Some? then ModuleWrites(path).value
          else old(defaults.current)
    {
      if name in OlderAllowed {
        var r := Import(OlderPath + name);
        imported := if r.Ok? then Some(r.value) else None;
      } else {
        var r := Import(OlderFallback);
        imported := None;
      }
    }
  }

  // ---------------------------------------------------------------------
  // The default template bundle and the class defaults it writes

  /** The keys of a template dictionary. */
  datatype Bundle = Bundle(
    bgColor: Color, textColor: Color,
    braneColor: Color, braneTextColor: Color, braneFillOpa: real, braneStrokeW: real,
    vacuumColor: Color, vacuumFillOpa: real, vacuumStrokeW: real, vacuumTextColor: Color,
    cornerRad: real, cornerRadDirection: seq<real>,
    arrowColor: Color, bhColor: Color, bhFillOpa: real)

  /** The black-and-white fallback template. */
  const DefaultBundle: Bundle := Bundle(
    White, Black,
    Red, White, 0.1, 0.2,
    Red, 0.2, 0.2, White,
    0.0, NoRounding,
    White, Black, 0.8)

  /** The keyword values a template hands to `Brane_General.set_default`
      and `Vacuum_General.set_default`. */
  datatype BraneDefaults = BraneDefaults(color: Color, fillOpa: real, strokeW: real, textColor: Color)
  datatype VacuumDefaults = VacuumDefaults(color: Color, fillOpa: real, strokeW: real, textColor: Color,
                                           cornerRad: real, direction: seq<real>)

  /** Everything a template writes: the background and the keyword values
      handed to the five object classes it touches. How `set_default`
      combines them with the keywords it is not given belongs to the
      animation framework and is not modelled. */
  datatype Defaults = Defaults(
    background: Color, brane: BraneDefaults, vacuum: VacuumDefaults,
    arrowColor: Color, bhColor: Color, bhFillOpa: real,
    stringColor: Color, fieldTopColor: Color)

  /** The constructors' own defaults for the same keywords, under a given
      background. */
  function Factory(background: Color): Defaults
  {
    Defaults(background, BraneDefaults(Red, 0.1, 0.2, White),
             VacuumDefaults(Red, 0.2, 0.2, White, 0.0, NoRounding),
             White, Black, 0.8, Blue, Blue)
  }

  /** The writes a template module performs with bundle `b`: the background,
      four brane keywords, all six vacuum keywords, the arrow colour, the
      hole's colour and opacity, and the bubble's string and field colours,
      which are the literal blue rather than values of the bundle. */
  function Writes(b: Bundle): (r: Defaults)
    ensures r.background == b.bgColor
    ensures r.stringColor == Blue && r.fieldTopColor == Blue
    ensures CornerRadii(r.vacuum.cornerRad, r.vacuum.direction) == CornerRadii(b.cornerRad, b.cornerRadDirection)
  {
    Defaults(b.bgColor,
             BraneDefaults(b.braneColor, b.braneFillOpa, b.braneStrokeW, b.braneTextColor),
             VacuumDefaults(b.vacuumColor, b.vacuumFillOpa, b.vacuumStrokeW, b.vacuumTextColor,
                            b.cornerRad, b.cornerRadDirection),
             b.arrowColor, b.bhColor, b.bhFillOpa, Blue, Blue)
  }

  /** The bundle's `text_color` is never written anywhere: two bundles that
      differ only there write the same values. */
  lemma TextColorUnused(b: Bundle, c: Color)
    ensures Writes(b.(textColor := c)) == Writes(b)
  {
  }

  /** The default template writes exactly the constructors' own defaults
      as `Factory` lists them, so of everything it touches only the
      background can change; with corner radius 0 every vacuum corner is
      square. */
  lemma DefaultTemplateOnlySetsBackground()
    ensures Writes(DefaultBundle) == Factory(White)
    ensures CornerRadii(DefaultBundle.cornerRad, DefaultBundle.cornerRadDirection) == [0.0, 0.0, 0.0, 0.0]
  {
    DefaultDirectionIsSquare(0.0);
  }

  /** `Factory` holds the constructors' own keyword defaults: objects built
      with no arguments carry exactly these values. `AdSJc` and `BlackHole`
      are the classes the templates write to; `BraneGeneral`,
      `VacuumGeneral` and `Bubble` are the `anim_theoretical` copies, taken
      to carry the same defaults as the `manim_string_cosmo` classes the
      templates write to. */
  method FactoryMatchesConstructors() returns (d: Defaults)
    ensures d == Factory(White)
  {
    var b := new BraneGeneral();
    var v := new VacuumGeneral();
    var ads := new AdsJc.AdSJc(b, v);
    var bh := new BlackHole.BlackHole(b);
    var bub := new Bubble.Bubble(b, v);
    d := Defaults(White, BraneDefaults(b.braneColor, b.braneFillOpa, b.braneStrokeW, b.braneTextColor),
                  VacuumDefaults(v.vacuumColor, v.vacuumFillOpa, v.vacuumStrokeW, v.vacuumTextColor, v.cr, NoRounding),
                  ads.arrowColor, bh.bhColor, bh.bhFillOpa, bub.stringColor, bub.fieldTopColor);
  }

  /** The global configuration a template module writes: the background and
      the keyword values last handed to each class's `set_default`. */
  class ClassDefaults {
    var current: Defaults

    constructor (background: Color)
      ensures current == Factory(background)
    {
      current := Factory(background);
    }

    /** The body of `default_template`: the background, then one
        `set_default` per class. */
    method RunDefaultTemplate()
      modifies this
      ensures current == Writes(DefaultBundle)
    {
      var b := DefaultBundle;
      current := current.(background := b.bgColor);
      current := current.(brane := BraneDefaults(b.braneColor, b.braneFillOpa, b.braneStrokeW, b.braneTextColor));
      current := current.(vacuum := VacuumDefaults(b.vacuumColor, b.vacuumFillOpa, b.vacuumStrokeW,
                                                   b.vacuumTextColor, b.cornerRad, b.cornerRadDirection));
      current := current.(arrowColor := b.arrowColor);
      current := current.(bhColor := b.bhColor, bhFillOpa := b.bhFillOpa);
      current := current.(stringColor := Blue, fieldTopColor := Blue);
    }

    /** Another template module's writes, taken as a whole. */
    method Apply(d: Defaults)
      modifies this
      ensures current == d
    {
      current := d;
    }
  }
}
