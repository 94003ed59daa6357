/** The sample data of services/mockData.ts (the admin account and the six
    sample properties) and what the feed, the moderation panel and the
    admin sign-in do with it. */
module Fixtures {
  import opened Basics
  import opened Listings
  import opened Feed
  import opened Moderation
  import opened AdminLogin

  const OtherUser := "other_user"

  const Admins := [AdminUser("admin_1", "admin", "123", "مدیر اصلی سیستم", Super)]

  const Property1 := Property("1", CurrentUser, "آپارتمان لوکس در شهر نو", 8500000, "AFN",
    Location(Finite(34.5333), Finite(69.1667)), "کوچه قصابی، شهر نو، کابل", "کابل",
    ["https://picsum.photos/800/600?random=1"], 3, true, 140, Apartment, Sale,
    "یک آپارتمان مدرن با دیکوریشن عالی و امنیت ۲۴ ساعته در قلب شهر نو.",
    ["گراچ", "لفت", "محافظ", "مرکز گرمی"], "۲ ساعت پیش", Approved, "0700112233")

  const Property2 := Property("2", OtherUser, "حویلی مفشن در وزیر اکبر خان", 60000, "AFN",
    Location(Finite(34.5400), Finite(69.1900)), "سرک ۱۵، وزیر اکبر خان، کابل", "کابل",
    ["https://picsum.photos/800/600?random=2"], 5, true, 450, House, Rent,
    "حویلی پاککاری شده و کلان مناسب برای دفتر یا رهایش خارجیان.",
    ["حوض آب بازی", "سرسبزی", "جنراتور", "گراچ کلان"], "دیروز", Approved, "0799887766")

  const Property3 := Property("3", OtherUser, "زمین تجارتی در هرات", 2000000, "AFN",
    Location(Finite(34.3529), Finite(62.2040)), "جاده ولایت، مرکز شهر هرات", "هرات",
    ["https://picsum.photos/800/600?random=3"], 0, false, 200, Commercial, Sale,
    "زمین موقعیت عالی برای ساخت مارکیت یا دکان.",
    ["قباله شرعی", "آب و برق"], "۳ روز پیش", Approved, "0700554433")

  const Property4 := Property("4", CurrentUser, "آپارتمان ارزان در دشت برچی", 500000, "AFN",
    Location(Finite(34.4900), Finite(69.0500)), "ایستگاه نقاش، دشت برچی", "کابل",
    ["https://picsum.photos/800/600?random=4"], 2, false, 90, Apartment, Mortgage,
    "آپارتمان نوساخت با قیمت مناسب برای فامیل های کوچک.",
    ["آفتاب‌رخ", "نزدیک بازار"], "۵ ساعت پیش", Approved, "0788223344")

  const Property5 := Property("5", OtherUser, "باغ و حویلی در مزار شریف", 12000000, "AFN",
    Location(Finite(36.7119), Finite(67.1107)), "نزدیک روضه شریف، مزار شریف", "مزار شریف",
    ["https://picsum.photos/800/600?random=5"], 4, true, 1000, House, Sale,
    "باغ زیبا با درختان میوه دار و تعمیر پخته.",
    ["چاه آب", "برق رهایشی", "فضای سبز"], "۱ هفته پیش", Approved, "0777112233")

  const Property6 := Property("6", OtherUser, "زمین زراعتی (در انتظار تایید)", 500000, "AFN",
    Location(Finite(34.5000), Finite(69.1000)), "پغمان، کابل", "کابل",
    ["https://picsum.photos/800/600?random=6"], 0, false, 2000, Land, Sale,
    "زمین مناسب برای کشت و زراعت.", ["آب فراوان"], "لحظاتی پیش", Pending, "0744998877")

  /** Sample 6 once an admin has approved it. */
  const Property6Approved := Property("6", OtherUser, "زمین زراعتی (در انتظار تایید)", 500000, "AFN",
    Location(Finite(34.5000), Finite(69.1000)), "پغمان، کابل", "کابل",
    ["https://picsum.photos/800/600?random=6"], 0, false, 2000, Land, Sale,
    "زمین مناسب برای کشت و زراعت.", ["آب فراوان"], "لحظاتی پیش", Approved, "0744998877")

  const Properties := [Property1, Property2, Property3, Property4, Property5, Property6]

  const Approved5 := [Property1, Property2, Property3, Property4, Property5]

  /** The feed right after a reset (any language and saved set): the five
      approved sample properties, in their order; the pending one is held back. */
  lemma ResetFeedOfSamples(lang: Language, savedIds: set<string>, tr: Translations)
    ensures Filtered(Properties, ResetFilter(lang, savedIds, tr), tr) == Approved5
  {
    var f := ResetFilter(lang, savedIds, tr);
    forall x | x in Approved5
      ensures Shown(x, f, tr)
    {
      EmptySearchMatchesAll(x);
    }
    assert !Shown(Property6, f, tr);
    FilteredAllOrNothing(Approved5, f, tr);
    FilteredAllOrNothing([Property6], f, tr);
    assert Properties == Approved5 + [Property6];
    FilteredAppend(Approved5, [Property6], f, tr);
  }

  /** "My ads" shows the two samples owned by `user_123`, whatever the
      other filters say. */
  lemma MyAdsOfSamples(f: FeedFilter, tr: Translations)
    requires f.showOnlyMyAds
    ensures Filtered(Properties, f, tr) == [Property1, Property4]
  {
    assert Filtered([Property6], f, tr) == [];
    assert Filtered([Property5, Property6], f, tr) == [];
    assert Filtered([Property4, Property5, Property6], f, tr) == [Property4];
    assert Filtered([Property3, Property4, Property5, Property6], f, tr) == [Property4];
    assert Filtered([Property2, Property3, Property4, Property5, Property6], f, tr) == [Property4];
  }

  /** Approving sample 6 turns it APPROVED and touches nothing else. */
  lemma ApprovingSampleSix()
    ensures WithApproved(Properties, "6")
            == [Property1, Property2, Property3, Property4, Property5, Property6Approved]
  {
  }

  /** Once approved, sample 6 joins the end of the reset feed. */
  lemma ApprovedSampleSixIsPublished(lang: Language, savedIds: set<string>, tr: Translations)
    ensures Filtered(WithApproved(Properties, "6"), ResetFilter(lang, savedIds, tr), tr)
            == Approved5 + [Property6Approved]
  {
    ApprovingSampleSix();
    var f := ResetFilter(lang, savedIds, tr);
    var all := Approved5 + [Property6Approved];
    assert WithApproved(Properties, "6") == all;
    forall x | x in all
      ensures Shown(x, f, tr)
    {
      EmptySearchMatchesAll(x);
    }
    FilteredAllOrNothing(all, f, tr);
  }

  /** Deleting sample 6 leaves the other five in order. */
  lemma DeletingSampleSix()
    ensures WithoutId(Properties, "6") == Approved5
  {
    WithoutIdAllOrNothing(Approved5, "6");
    WithoutIdAllOrNothing([Property6], "6");
    assert Properties == Approved5 + [Property6];
    WithoutIdAppend(Approved5, [Property6], "6");
  }

  /** The pending tab of the panel lists sample 6 only. */
  lemma PendingTabOfSamples()
    ensures ReviewList(Properties, PendingTab) == [Property6]
  {
    assert ReviewList([Property6], PendingTab) == [Property6];
    assert ReviewList([Property5, Property6], PendingTab) == [Property6];
    assert ReviewList([Property4, Property5, Property6], PendingTab) == [Property6];
    assert ReviewList([Property3, Property4, Property5, Property6], PendingTab) == [Property6];
    assert ReviewList([Property2, Property3, Property4, Property5, Property6], PendingTab) == [Property6];
  }

  /** admin / 123 signs in as the sample admin; a wrong password does not. */
  lemma SampleAdminSignIn()
    ensures FindAdmin(Admins, "admin", "123") == Some(Admins[0])
    ensures FindAdmin(Admins, "admin", "1234") == None
  {
    assert !Matches(Admins[0], "admin", "1234");
    assert Admins[1..] == [];
  }
}
