/** Translation lookup: one flat string table per language and the `t`
    function, which walks a dotted key through the chosen table and falls
    back to the key itself. */
module Translations {
  import opened Types
  import opened Text

  /** No key contains a dot. */
  predicate Flat(m: map<string, string>)
  {
    forall k :: k in m ==> '.' !in k
  }

  /** Every entry is a non-empty string, hence truthy. */
  predicate NonEmptyValues(m: map<string, string>)
  {
    forall k :: k in m ==> m[k] != ""
  }

  predicate WellFormed(m: map<string, string>)
  {
    Flat(m) && NonEmptyValues(m)
  }

  /** A translation table, or a section of one: flat, with non-empty
      entries. */
  type Table = m: map<string, string> | WellFormed(m) witness map[]

  /** Two sections joined into one table; a key of `b` wins over the same
      key of `a`. */
  function Union(a: Table, b: Table): (t: Table)
    ensures t.Keys == a.Keys + b.Keys
  {
    a + b
  }

  // Each table is written in sections, one per part of the interface, with
  // the same keys in the same order in every language.

  const FrNavigation: Table := map[
    "dashboard" := "Tableau de bord",
    "users" := "Utilisateurs",
    "settings" := "Paramètres",
    "notifications" := "Notifications",
    "logout" := "Déconnexion"
  ]

  const FrAuthentication: Table := map[
    "login" := "Connexion",
    "email" := "Email",
    "password" := "Mot de passe",
    "signIn" := "Se connecter",
    "signOut" := "Se déconnecter"
  ]

  const FrDashboard: Table := map[
    "welcome" := "Bienvenue",
    "ideStats" := "Statistiques IDE",
    "totalUsers" := "Utilisateurs totaux",
    "popularIdes" := "IDE populaires",
    "usersByIde" := "Utilisateurs par IDE"
  ]

  const FrUserTitles: Table := map[
    "userManagement" := "Gestion des utilisateurs",
    "addUser" := "Ajouter un utilisateur",
    "editUser" := "Modifier l'utilisateur",
    "deleteUser" := "Supprimer l'utilisateur"
  ]

  const FrUserColumns: Table := map[
    "firstName" := "Prénom",
    "lastName" := "Nom",
    "role" := "Rôle",
    "createdAt" := "Créé le",
    "lastLogin" := "Dernière connexion",
    "actions" := "Actions"
  ]

  const FrRoles: Table := map[
    "superadmin" := "Super Admin",
    "admin" := "Administrateur",
    "employee" := "Employé"
  ]

  const FrSettings: Table := map[
    "generalSettings" := "Paramètres généraux",
    "language" := "Langue",
    "theme" := "Thème",
    "lightTheme" := "Thème clair",
    "darkTheme" := "Thème sombre",
    "notificationSettings" := "Paramètres de notification"
  ]

  const FrStatuses: Table := map[
    "success" := "Succès",
    "error" := "Erreur",
    "warning" := "Attention",
    "info" := "Information",
    "loading" := "Chargement..."
  ]

  const FrActions: Table := map[
    "save" := "Enregistrer",
    "cancel" := "Annuler",
    "delete" := "Supprimer",
    "edit" := "Modifier",
    "view" := "Voir"
  ]

  const FrErrors: Table := map[
    "invalidCredentials" := "Identifiants invalides",
    "networkError" := "Erreur de réseau",
    "unauthorized" := "Non autorisé"
  ]

  const FrNotifications: Table := map[
    "newNotification" := "Nouvelle notification",
    "markAsRead" := "Marquer comme lu",
    "markAllAsRead" := "Tout marquer comme lu",
    "noNotifications" := "Aucune notification"
  ]

  const EnNavigation: Table := map[
    "dashboard" := "Dashboard",
    "users" := "Users",
    "settings" := "Settings",
    "notifications" := "Notifications",
    "logout" := "Logout"
  ]

  const EnAuthentication: Table := map[
    "login" := "Login",
    "email" := "Email",
    "password" := "Password",
    "signIn" := "Sign In",
    "signOut" := "Sign Out"
  ]

  const EnDashboard: Table := map[
    "welcome" := "Welcome",
    "ideStats" := "IDE Statistics",
    "totalUsers" := "Total Users",
    "popularIdes" := "Popular IDEs",
    "usersByIde" := "Users by IDE"
  ]

  const EnUserTitles: Table := map[
    "userManagement" := "User Management",
    "addUser" := "Add User",
    "editUser" := "Edit User",
    "deleteUser" := "Delete User"
  ]

  const EnUserColumns: Table := map[
    "firstName" := "First Name",
    "lastName" := "Last Name",
    "role" := "Role",
    "createdAt" := "Created At",
    "lastLogin" := "Last Login",
    "actions" := "Actions"
  ]

  const EnRoles: Table := map[
    "superadmin" := "Super Admin",
    "admin" := "Administrator",
    "employee" := "Employee"
  ]

  const EnSettings: Table := map[
    "generalSettings" := "General Settings",
    "language" := "Language",
    "theme" := "Theme",
    "lightTheme" := "Light Theme",
    "darkTheme" := "Dark Theme",
    "notificationSettings" := "Notification Settings"
  ]

  const EnStatuses: Table := map[
    "success" := "Success",
    "error" := "Error",
    "warning" := "Warning",
    "info" := "Information",
    "loading" := "Loading..."
  ]

  const EnActions: Table := map[
    "save" := "Save",
    "cancel" := "Cancel",
    "delete" := "Delete",
    "edit" := "Edit",
    "view" := "View"
  ]

  const EnErrors: Table := map[
    "invalidCredentials" := "Invalid credentials",
    "networkError" := "Network error",
    "unauthorized" := "Unauthorized"
  ]

  const EnNotifications: Table := map[
    "newNotification" := "New notification",
    "markAsRead" := "Mark as read",
    "markAllAsRead" := "Mark all as read",
    "noNotifications" := "No notifications"
  ]

  const ArNavigation: Table := map[
    "dashboard" := "لوحة التحكم",
    "users" := "المستخدمون",
    "settings" := "الإعدادات",
    "notifications" := "الإشعارات",
    "logout" := "تسجيل الخروج"
  ]

  const ArAuthentication: Table := map[
    "login" := "تسجيل الدخول",
    "email" := "البريد الإلكتروني",
    "password" := "كلمة المرور",
    "signIn" := "دخول",
    "signOut" := "خروج"
  ]

  const ArDashboard: Table := map[
    "welcome" := "مرحباً",
    "ideStats" := "إحصائيات IDE",
    "totalUsers" := "إجمالي المستخدمين",
    "popularIdes" := "IDE الشائعة",
    "usersByIde" := "المستخدمون حسب IDE"
  ]

  const ArUserTitles: Table := map[
    "userManagement" := "إدارة المستخدمين",
    "addUser" := "إضافة مستخدم",
    "editUser" := "تعديل المستخدم",
    "deleteUser" := "حذف المستخدم"
  ]

  const ArUserColumns: Table := map[
    "firstName" := "الاسم الأول",
    "lastName" := "اسم العائلة",
    "role" := "الدور",
    "createdAt" := "تاريخ الإنشاء",
    "lastLogin" := "آخر دخول",
    "actions" := "الإجراءات"
  ]

  const ArRoles: Table := map[
    "superadmin" := "المشرف العام",
    "admin" := "مدير",
    "employee" := "موظف"
  ]

  const ArSettings: Table := map[
    "generalSettings" := "الإعدادات العامة",
    "language" := "اللغة",
    "theme" := "المظهر",
    "lightTheme" := "المظهر الفاتح",
    "darkTheme" := "المظهر الداكن",
    "notificationSettings" := "إعدادات الإشعارات"
  ]

  const ArStatuses: Table := map[
    "success" := "نجح",
    "error" := "خطأ",
    "warning" := "تحذير",
    "info" := "معلومات",
    "loading" := "جاري التحميل..."
  ]

  const ArActions: Table := map[
    "save" := "حفظ",
    "cancel" := "إلغاء",
    "delete" := "حذف",
    "edit" := "تعديل",
    "view" := "عرض"
  ]

  const ArErrors: Table := map[
    "invalidCredentials" := "بيانات اعتماد غير صحيحة",
    "networkError" := "خطأ في الشبكة",
    "unauthorized" := "غير مصرح"
  ]

  const ArNotifications: Table := map[
    "newNotification" := "إشعار جديد",
    "markAsRead" := "وضع علامة كمقروء",
    "markAllAsRead" := "وضع علامة على الكل كمقروء",
    "noNotifications" := "لا توجد إشعارات"
  ]

  const FrTable: Table := Union(Union(Union(Union(Union(Union(Union(Union(Union(Union(FrNavigation, FrAuthentication), FrDashboard), FrUserTitles), FrUserColumns), FrRoles), FrSettings), FrStatuses), FrActions), FrErrors), FrNotifications)
  const EnTable: Table := Union(Union(Union(Union(Union(Union(Union(Union(Union(Union(EnNavigation, EnAuthentication), EnDashboard), EnUserTitles), EnUserColumns), EnRoles), EnSettings), EnStatuses), EnActions), EnErrors), EnNotifications)
  const ArTable: Table := Union(Union(Union(Union(Union(Union(Union(Union(Union(Union(ArNavigation, ArAuthentication), ArDashboard), ArUserTitles), ArUserColumns), ArRoles), ArSettings), ArStatuses), ArActions), ArErrors), ArNotifications)

  /** `translations[lang]`. */
  function TableOf(lang: Language): Table
  {
    match lang
    case Fr => FrTable
    case En => EnTable
    case Ar => ArTable
  }

  lemma NavigationSectionKeys()
    ensures FrNavigation.Keys == EnNavigation.Keys && EnNavigation.Keys == ArNavigation.Keys
  {
  }

  lemma AuthenticationSectionKeys()
    ensures FrAuthentication.Keys == EnAuthentication.Keys && EnAuthentication.Keys == ArAuthentication.Keys
  {
  }

  lemma DashboardSectionKeys()
    ensures FrDashboard.Keys == EnDashboard.Keys && EnDashboard.Keys == ArDashboard.Keys
  {
  }

  lemma UserTitlesSectionKeys()
    ensures FrUserTitles.Keys == EnUserTitles.Keys && EnUserTitles.Keys == ArUserTitles.Keys
  {
  }

  lemma UserColumnsSectionKeys()
    ensures FrUserColumns.Keys == EnUserColumns.Keys && EnUserColumns.Keys == ArUserColumns.Keys
  {
  }

  lemma RolesSectionKeys()
    ensures FrRoles.Keys == EnRoles.Keys && EnRoles.Keys == ArRoles.Keys
  {
  }

  lemma SettingsSectionKeys()
    ensures FrSettings.Keys == EnSettings.Keys && EnSettings.Keys == ArSettings.Keys
  {
  }

  lemma StatusesSectionKeys()
    ensures FrStatuses.Keys == EnStatuses.Keys && EnStatuses.Keys == ArStatuses.Keys
  {
  }

  lemma ActionsSectionKeys()
    ensures FrActions.Keys == EnActions.Keys && EnActions.Keys == ArActions.Keys
  {
  }

  lemma ErrorsSectionKeys()
    ensures FrErrors.Keys == EnErrors.Keys && EnErrors.Keys == ArErrors.Keys
  {
  }

  lemma NotificationsSectionKeys()
    ensures FrNotifications.Keys == EnNotifications.Keys && EnNotifications.Keys == ArNotifications.Keys
  {
  }

  /** Joining sections with the same keys gives tables with the same keys. */
  lemma UnionSameKeys(a: Table, b: Table, c: Table, d: Table)
    requires a.Keys == c.Keys && b.Keys == d.Keys
    ensures Union(a, b).Keys == Union(c, d).Keys
  {
  }

  /** The French and English tables define the same keys. */
  lemma FrAndEnHaveSameKeys()
    ensures TableOf(Fr).Keys == TableOf(En).Keys
  {
    NavigationSectionKeys();
    AuthenticationSectionKeys();
    DashboardSectionKeys();
    UserTitlesSectionKeys();
    UserColumnsSectionKeys();
    RolesSectionKeys();
    SettingsSectionKeys();
    StatusesSectionKeys();
    ActionsSectionKeys();
    ErrorsSectionKeys();
    NotificationsSectionKeys();
    UnionSameKeys(FrNavigation, FrAuthentication, EnNavigation, EnAuthentication);
    UnionSameKeys(Union(FrNavigation, FrAuthentication), FrDashboard, Union(EnNavigation, EnAuthentication), EnDashboard);
    UnionSameKeys(Union(Union(FrNavigation, FrAuthentication), FrDashboard), FrUserTitles, Union(Union(EnNavigation, EnAuthentication), EnDashboard), EnUserTitles);
    UnionSameKeys(Union(Union(Union(FrNavigation, FrAuthentication), FrDashboard), FrUserTitles), FrUserColumns, Union(Union(Union(EnNavigation, EnAuthentication), EnDashboard), EnUserTitles), EnUserColumns);
    UnionSameKeys(Union(Union(Union(Union(FrNavigation, FrAuthentication), FrDashboard), FrUserTitles), FrUserColumns), FrRoles, Union(Union(Union(Union(EnNavigation, EnAuthentication), EnDashboard), EnUserTitles), EnUserColumns), EnRoles);
    UnionSameKeys(Union(Union(Union(Union(Union(FrNavigation, FrAuthentication), FrDashboard), FrUserTitles), FrUserColumns), FrRoles), FrSettings, Union(Union(Union(Union(Union(EnNavigation, EnAuthentication), EnDashboard), EnUserTitles), EnUserColumns), EnRoles), EnSettings);
    UnionSameKeys(Union(Union(Union(Union(Union(Union(FrNavigation, FrAuthentication), FrDashboard), FrUserTitles), FrUserColumns), FrRoles), FrSettings), FrStatuses, Union(Union(Union(Union(Union(Union(EnNavigation, EnAuthentication), EnDashboard), EnUserTitles), EnUserColumns), EnRoles), EnSettings), EnStatuses);
    UnionSameKeys(Union(Union(Union(Union(Union(Union(Union(FrNavigation, FrAuthentication), FrDashboard), FrUserTitles), FrUserColumns), FrRoles), FrSettings), FrStatuses), FrActions, Union(Union(Union(Union(Union(Union(Union(EnNavigation, EnAuthentication), EnDashboard), EnUserTitles), EnUserColumns), EnRoles), EnSettings), EnStatuses), EnActions);
    UnionSameKeys(Union(Union(Union(Union(Union(Union(Union(Union(FrNavigation, FrAuthentication), FrDashboard), FrUserTitles), FrUserColumns), FrRoles), FrSettings), FrStatuses), FrActions), FrErrors, Union(Union(Union(Union(Union(Union(Union(Union(EnNavigation, EnAuthentication), EnDashboard), EnUserTitles), EnUserColumns), EnRoles), EnSettings), EnStatuses), EnActions), EnErrors);
    UnionSameKeys(Union(Union(Union(Union(Union(Union(Union(Union(Union(FrNavigation, FrAuthentication), FrDashboard), FrUserTitles), FrUserColumns), FrRoles), FrSettings), FrStatuses), FrActions), FrErrors), FrNotifications, Union(Union(Union(Union(Union(Union(Union(Union(Union(EnNavigation, EnAuthentication), EnDashboard), EnUserTitles), EnUserColumns), EnRoles), EnSettings), EnStatuses), EnActions), EnErrors), EnNotifications);
  }

  /** The English and Arabic tables define the same keys. */
  lemma EnAndArHaveSameKeys()
    ensures TableOf(En).Keys == TableOf(Ar).Keys
  {
    NavigationSectionKeys();
    AuthenticationSectionKeys();
    DashboardSectionKeys();
    UserTitlesSectionKeys();
    UserColumnsSectionKeys();
    RolesSectionKeys();
    SettingsSectionKeys();
    StatusesSectionKeys();
    ActionsSectionKeys();
    ErrorsSectionKeys();
    NotificationsSectionKeys();
    UnionSameKeys(EnNavigation, EnAuthentication, ArNavigation, ArAuthentication);
    UnionSameKeys(Union(EnNavigation, EnAuthentication), EnDashboard, Union(ArNavigation, ArAuthentication), ArDashboard);
    UnionSameKeys(Union(Union(EnNavigation, EnAuthentication), EnDashboard), EnUserTitles, Union(Union(ArNavigation, ArAuthentication), ArDashboard), ArUserTitles);
    UnionSameKeys(Union(Union(Union(EnNavigation, EnAuthentication), EnDashboard), EnUserTitles), EnUserColumns, Union(Union(Union(ArNavigation, ArAuthentication), ArDashboard), ArUserTitles), ArUserColumns);
    UnionSameKeys(Union(Union(Union(Union(EnNavigation, EnAuthentication), EnDashboard), EnUserTitles), EnUserColumns), EnRoles, Union(Union(Union(Union(ArNavigation, ArAuthentication), ArDashboard), ArUserTitles), ArUserColumns), ArRoles);
    UnionSameKeys(Union(Union(Union(Union(Union(EnNavigation, EnAuthentication), EnDashboard), EnUserTitles), EnUserColumns), EnRoles), EnSettings, Union(Union(Union(Union(Union(ArNavigation, ArAuthentication), ArDashboard), ArUserTitles), ArUserColumns), ArRoles), ArSettings);
    UnionSameKeys(Union(Union(Union(Union(Union(Union(EnNavigation, EnAuthentication), EnDashboard), EnUserTitles), EnUserColumns), EnRoles), EnSettings), EnStatuses, Union(Union(Union(Union(Union(Union(ArNavigation, ArAuthentication), ArDashboard), ArUserTitles), ArUserColumns), ArRoles), ArSettings), ArStatuses);
    UnionSameKeys(Union(Union(Union(Union(Union(Union(Union(EnNavigation, EnAuthentication), EnDashboard), EnUserTitles), EnUserColumns), EnRoles), EnSettings), EnStatuses), EnActions, Union(Union(Union(Union(Union(Union(Union(ArNavigation, ArAuthentication), ArDashboard), ArUserTitles), ArUserColumns), ArRoles), ArSettings), ArStatuses), ArActions);
    UnionSameKeys(Union(Union(Union(Union(Union(Union(Union(Union(EnNavigation, EnAuthentication), EnDashboard), EnUserTitles), EnUserColumns), EnRoles), EnSettings), EnStatuses), EnActions), EnErrors, Union(Union(Union(Union(Union(Union(Union(Union(ArNavigation, ArAuthentication), ArDashboard), ArUserTitles), ArUserColumns), ArRoles), ArSettings), ArStatuses), ArActions), ArErrors);
    UnionSameKeys(Union(Union(Union(Union(Union(Union(Union(Union(Union(EnNavigation, EnAuthentication), EnDashboard), EnUserTitles), EnUserColumns), EnRoles), EnSettings), EnStatuses), EnActions), EnErrors), EnNotifications, Union(Union(Union(Union(Union(Union(Union(Union(Union(ArNavigation, ArAuthentication), ArDashboard), ArUserTitles), ArUserColumns), ArRoles), ArSettings), ArStatuses), ArActions), ArErrors), ArNotifications);
  }

  /** The JavaScript values the walk passes through: a table object, a
      string, or `undefined`. */
  datatype Value = Object(entries: map<string, string>) | Str(s: string) | Undefined

  /** `value?.[k]`: a table gives its entry, a string gives the character
      at an array-index key, and anything missing gives `undefined`. */
  function Index(v: Value, k: string): Value
  {
    match v
    case Undefined => Undefined
    case Object(m) => if k in m then Str(m[k]) else Undefined
    case Str(s) =>
      if IsCanonicalDecimal(k) && DecimalValue(k) < |s| then Str([s[DecimalValue(k)]]) else Undefined
  }

  /** The value reached by indexing with each key segment in turn. */
  function Walk(v: Value, keys: seq<string>): Value
    decreases |keys|
  {
    if keys == [] then v else Walk(Index(v, keys[0]), keys[1..])
  }

  /** A value a walk from table `m` can reach: `undefined`, one of the
      table's strings, or a single character taken from one of them. */
  predicate ReachableFrom(m: map<string, string>, v: Value)
  {
    || v.Undefined?
    || (v.Str? && v.s in m.Values)
    || (v.Str? && |v.s| == 1 && exists w :: w in m.Values && v.s[0] in w)
  }

  /** Past the first segment, a walk only meets reachable values; in
      particular it never ends on the table itself. */
  lemma {:induction false} WalkStaysReachable(m: map<string, string>, v: Value, keys: seq<string>)
    requires ReachableFrom(m, v)
    ensures ReachableFrom(m, Walk(v, keys))
    decreases |keys|
  {
    if keys != [] {
      var next := Index(v, keys[0]);
      if next.Str? && v.Str? {
        var c := v.s[DecimalValue(keys[0])];
        if v.s in m.Values {
          assert c in v.s;
        } else {
          assert |v.s| == 1 && next.s == v.s;
        }
      }
      WalkStaysReachable(m, next, keys[1..]);
    }
  }

  /** Once `undefined`, the walk stays `undefined`. */
  lemma {:induction false} WalkFromUndefined(keys: seq<string>)
    ensures Walk(Undefined, keys) == Undefined
    decreases |keys|
  {
    if keys != [] {
      WalkFromUndefined(keys[1..]);
    }
  }

  /** `t` over table `m`: the value the walk reaches if it is a non-empty
      string, otherwise the key. */
  function Lookup(m: map<string, string>, key: string): (r: string)
    ensures key != "" ==> r != ""
    ensures r == key || r in m.Values || (|r| == 1 && exists w :: w in m.Values && r[0] in w)
  {
    var keys := Split(key, '.');
    assert ReachableFrom(m, Walk(Object(m), keys)) by {
      assert Walk(Object(m), keys) == Walk(Index(Object(m), keys[0]), keys[1..]);
      WalkStaysReachable(m, Index(Object(m), keys[0]), keys[1..]);
    }
    match Walk(Object(m), keys)
    case Str(s) => if s != "" then s else key
    case _ => key
  }

  /** `t(key)` in language `lang`. */
  function Translate(lang: Language, key: string): (r: string)
    ensures key != "" ==> r != ""
    ensures r == key || r in TableOf(lang).Values
         || (|r| == 1 && exists w :: w in TableOf(lang).Values && r[0] in w)
  {
    Lookup(TableOf(lang), key)
  }

  /** The loop of `t`: split the key on dots and walk the table one
      segment at a time. */
  method LookupKey(m: map<string, string>, key: string) returns (r: string)
    ensures r == Lookup(m, key)
  {
    var keys := Split(key, '.');
    var value := Object(m);
    for i := 0 to |keys|
      invariant Walk(value, keys[i..]) == Walk(Object(m), keys)
    {
      assert keys[i..][1..] == keys[i + 1..];
      value := Index(value, keys[i]);
    }
    assert keys[|keys|..] == [];
    if value.Str? && value.s != "" {
      r := value.s;
    } else {
      r := key;
    }
  }

  /** `useTranslation(lang).t`. */
  method T(lang: Language, key: string) returns (r: string)
    ensures r == Translate(lang, key)
  {
    r := LookupKey(TableOf(lang), key);
  }

  /** In a well-formed table, a defined key looks up its entry. */
  lemma DefinedKeyLooksUp(m: map<string, string>, k: string)
    requires WellFormed(m) && k in m
    ensures Lookup(m, k) == m[k]
  {
    SplitWithoutSeparator(k, '.');
    assert Walk(Object(m), [k]) == Walk(Str(m[k]), []);
  }

  /** A dot-free key missing from the table looks up itself. */
  lemma UndefinedKeyLooksUpItself(m: map<string, string>, k: string)
    requires '.' !in k && k !in m
    ensures Lookup(m, k) == k
  {
    SplitWithoutSeparator(k, '.');
    assert Walk(Object(m), [k]) == Walk(Undefined, []);
  }

  /** A dotted key whose first segment is missing looks up itself,
      whatever follows. */
  lemma UnknownFirstSegmentLooksUpItself(m: map<string, string>, a: string, rest: string)
    requires '.' !in a && a !in m
    ensures Lookup(m, a + "." + rest) == a + "." + rest
  {
    SplitAtFirstSeparator(a, rest, '.');
    var keys := [a] + Split(rest, '.');
    assert keys[1..] == Split(rest, '.');
    WalkFromUndefined(keys[1..]);
  }

  /** A key whose walk ends on `undefined` looks up itself. */
  lemma LookupOfUndefinedWalk(m: map<string, string>, key: string)
    requires Walk(Object(m), Split(key, '.')) == Undefined
    ensures Lookup(m, key) == key
  {
  }

  /** In a flat table a two-segment key `entry.b` whose `b` is not an index
      into the entry's text looks up itself. */
  lemma NonIndexLastSegmentLooksUpItself(m: map<string, string>, a: string, b: string)
    requires Flat(m) && a in m && '.' !in b
    requires !(IsCanonicalDecimal(b) && DecimalValue(b) < |m[a]|)
    ensures Lookup(m, a + "." + b) == a + "." + b
  {
    var key := a + "." + b;
    SplitAtFirstSeparator(a, b, '.');
    SplitWithoutSeparator(b, '.');
    assert Split(key, '.') == [a, b];
    assert Walk(Object(m), [a, b]) == Walk(Str(m[a]), [b]);
    assert Index(Str(m[a]), b) == Undefined;
    assert Walk(Str(m[a]), [b]) == Walk(Undefined, []);
    LookupOfUndefinedWalk(m, key);
  }

  /** In a flat table a key of three or more segments `entry.b.rest` whose
      `b` is not an index into the entry's text looks up itself: the tables
      do not nest. */
  lemma NonIndexSecondSegmentLooksUpItself(m: map<string, string>, a: string, b: string, rest: string)
    requires Flat(m) && a in m && '.' !in b
    requires !(IsCanonicalDecimal(b) && DecimalValue(b) < |m[a]|)
    ensures Lookup(m, a + "." + b + "." + rest) == a + "." + b + "." + rest
  {
    var tail := b + "." + rest;
    var key := a + "." + b + "." + rest;
    assert key == a + ['.'] + tail;
    SplitAtFirstSeparator(b, rest, '.');
    SplitAtFirstSeparator(a, tail, '.');
    var keys := [a] + ([b] + Split(rest, '.'));
    assert Split(key, '.') == keys;
    assert Walk(Object(m), keys) == Walk(Str(m[a]), [b] + Split(rest, '.')) by {
      assert keys[0] == a && keys[1..] == [b] + Split(rest, '.');
    }
    assert Walk(Str(m[a]), [b] + Split(rest, '.')) == Walk(Undefined, Split(rest, '.')) by {
      assert Index(Str(m[a]), b) == Undefined;
      assert ([b] + Split(rest, '.'))[1..] == Split(rest, '.');
    }
    WalkFromUndefined(Split(rest, '.'));
    LookupOfUndefinedWalk(m, key);
  }

  /** In a flat table the walk also indexes into strings: `entry.i` looks
      up the i-th character of the entry rather than the key. */
  lemma IndexIntoEntryLooksUpCharacter(m: map<string, string>, a: string, b: string)
    requires Flat(m) && a in m && IsCanonicalDecimal(b) && DecimalValue(b) < |m[a]|
    ensures Lookup(m, a + "." + b) == [m[a][DecimalValue(b)]]
  {
    assert '.' !in b;
    SplitAtFirstSeparator(a, b, '.');
    SplitWithoutSeparator(b, '.');
    var v := Str([m[a][DecimalValue(b)]]);
    assert Walk(Object(m), [a, b]) == Walk(v, []);
  }

  /** A key defined in the table translates to its entry. */
  lemma DefinedKeyTranslates(lang: Language, k: string)
    requires k in TableOf(lang)
    ensures Translate(lang, k) == TableOf(lang)[k]
  {
    DefinedKeyLooksUp(TableOf(lang), k);
  }

  /** A dotted key whose first segment is missing falls back to the key. */
  lemma UnknownFirstSegmentFallsBack(lang: Language, a: string, rest: string)
    requires '.' !in a && a !in TableOf(lang)
    ensures Translate(lang, a + "." + rest) == a + "." + rest
  {
    UnknownFirstSegmentLooksUpItself(TableOf(lang), a, rest);
  }

  /** `entry.b` with a defined `entry` translates to itself unless `b` indexes the entry's text. */
  lemma NonIndexLastSegmentFallsBack(lang: Language, a: string, b: string)
    requires a in TableOf(lang) && '.' !in b
    requires !(IsCanonicalDecimal(b) && DecimalValue(b) < |TableOf(lang)[a]|)
    ensures Translate(lang, a + "." + b) == a + "." + b
  {
    NonIndexLastSegmentLooksUpItself(TableOf(lang), a, b);
  }

  /** `entry.b.rest` with a defined `entry` translates to itself unless `b`
      indexes the entry's text. */
  lemma NonIndexSecondSegmentFallsBack(lang: Language, a: string, b: string, rest: string)
    requires a in TableOf(lang) && '.' !in b
    requires !(IsCanonicalDecimal(b) && DecimalValue(b) < |TableOf(lang)[a]|)
    ensures Translate(lang, a + "." + b + "." + rest) == a + "." + b + "." + rest
  {
    NonIndexSecondSegmentLooksUpItself(TableOf(lang), a, b, rest);
  }

  /** `entry.i` translates to the i-th character of the entry's text. */
  lemma IndexIntoEntry(lang: Language, a: string, b: string)
    requires a in TableOf(lang) && IsCanonicalDecimal(b)
    requires DecimalValue(b) < |TableOf(lang)[a]|
    ensures Translate(lang, a + "." + b) == [TableOf(lang)[a][DecimalValue(b)]]
  {
    IndexIntoEntryLooksUpCharacter(TableOf(lang), a, b);
  }
}
