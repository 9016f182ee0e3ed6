/** The website content editor: blog posts and testimonials deleted by id,
    contact messages marked read by id, the site settings edited one input at
    a time, the star row of a testimonial, and the dialog that edits a
    homepage block. */
module WebsiteCustomization {
  import opened Lists

  datatype BlogPost = BlogPost(id: int, title: string, excerpt: string, author: string, date: string, status: string)

  /** A testimonial. Its `rating` is a whole number, as in the mock data: a
      fractional rating, whose star row `Array.from` would round down, is
      not modelled. */
  datatype Testimonial = Testimonial(id: int, name: string, rating: int, comment: string, property: string, date: string)

  datatype ContactMessage = ContactMessage(
    id: int, name: string, email: string, subject: string, message: string, date: string, status: string)

  datatype SocialMedia = SocialMedia(twitter: string, instagram: string, facebook: string)

  datatype Policies = Policies(privacy: string, terms: string, cancellation: string)

  datatype SiteSettings = SiteSettings(
    siteName: string,
    tagline: string,
    logo: string,
    primaryColor: string,
    secondaryColor: string,
    contactEmail: string,
    contactPhone: string,
    address: string,
    socialMedia: SocialMedia,
    policies: Policies)

  /** A homepage block as the edit dialog sees it; its content is left out. */
  datatype HomepageBlock = HomepageBlock(id: string, name: string, blockType: string)

  // ---------------------------------------------------------------------
  // Blog posts and testimonials

  /** The filter callback of `handleDeleteBlogPost`. */
  function PostIdIsNot(id: int): BlogPost -> bool
  {
    (p: BlogPost) => p.id != id
  }

  /** `handleDeleteBlogPost` on the list: exactly the posts with that id are
      gone, the others stay in their order, and an unknown id changes nothing. */
  function DeleteBlogPost(posts: seq<BlogPost>, id: int): (r: seq<BlogPost>)
    ensures forall p :: p in r <==> p in posts && p.id != id
    ensures IsSubsequence(r, posts)
    ensures forall p :: multiset(r)[p] == if p.id != id then multiset(posts)[p] else 0
    ensures (forall p :: p in posts ==> p.id != id) <==> r == posts
  {
    FilterIsSubsequence(posts, PostIdIsNot(id));
    FilterMultiset(posts, PostIdIsNot(id));
    FilterKeepsAllIff(posts, PostIdIsNot(id));
    Filter(posts, PostIdIsNot(id))
  }

  /** The filter callback of `handleDeleteTestimonial`. */
  function TestimonialIdIsNot(id: int): Testimonial -> bool
  {
    (t: Testimonial) => t.id != id
  }

  /** `handleDeleteTestimonial` on the list: exactly the testimonials with that
      id are gone, the others stay in their order, and an unknown id changes
      nothing. */
  function DeleteTestimonial(testimonials: seq<Testimonial>, id: int): (r: seq<Testimonial>)
    ensures forall t :: t in r <==> t in testimonials && t.id != id
    ensures IsSubsequence(r, testimonials)
    ensures forall t :: multiset(r)[t] == if t.id != id then multiset(testimonials)[t] else 0
    ensures (forall t :: t in testimonials ==> t.id != id) <==> r == testimonials
  {
    FilterIsSubsequence(testimonials, TestimonialIdIsNot(id));
    FilterMultiset(testimonials, TestimonialIdIsNot(id));
    FilterKeepsAllIff(testimonials, TestimonialIdIsNot(id));
    Filter(testimonials, TestimonialIdIsNot(id))
  }

  /** Deleting the same post or testimonial twice is the same as deleting it once. */
  lemma {:induction false} DeleteTwice(posts: seq<BlogPost>, testimonials: seq<Testimonial>, id: int)
    ensures DeleteBlogPost(DeleteBlogPost(posts, id), id) == DeleteBlogPost(posts, id)
    ensures DeleteTestimonial(DeleteTestimonial(testimonials, id), id) == DeleteTestimonial(testimonials, id)
  {
    FilterIdempotent(posts, PostIdIsNot(id));
    FilterIdempotent(testimonials, TestimonialIdIsNot(id));
  }

  /** The star row of a testimonial, `Array.from({ length: rating })`: one star
      per point of the rating, keyed 0, 1, 2, ...; a negative length counts as
      zero. */
  function StarKeys(rating: int): (r: seq<nat>)
    ensures |r| == if rating < 0 then 0 else rating
    ensures forall i :: 0 <= i < |r| ==> r[i] == i
  {
    if rating <= 0 then [] else StarKeys(rating - 1) + [rating - 1]
  }

  // ---------------------------------------------------------------------
  // Contact messages

  /** The "Mark Read" button (and the "New" tag) is shown only for unread messages. */
  predicate OffersMarkRead(m: ContactMessage)
  {
    m.status == "unread"
  }

  /** `handleMarkMessageRead` on the list: the messages with that id get
      status "read" and keep every other field; all other messages, the
      length and the order stay as they were. */
  function MarkMessageRead(messages: seq<ContactMessage>, id: int): (r: seq<ContactMessage>)
    ensures |r| == |messages|
    ensures forall i :: 0 <= i < |r| && messages[i].id != id ==> r[i] == messages[i]
    ensures forall i :: 0 <= i < |r| && messages[i].id == id ==>
      r[i] == messages[i].(status := "read") && !OffersMarkRead(r[i])
  {
    if messages == [] then []
    else
      var m := messages[0];
      [if m.id == id then m.(status := "read") else m] + MarkMessageRead(messages[1..], id)
  }

  /** Marking the same message read twice is the same as marking it once. */
  lemma {:induction false} MarkReadTwice(messages: seq<ContactMessage>, id: int)
    ensures MarkMessageRead(MarkMessageRead(messages, id), id) == MarkMessageRead(messages, id)
  {
    var once := MarkMessageRead(messages, id);
    var twice := MarkMessageRead(once, id);
    assert |twice| == |once|;
    forall i | 0 <= i < |once|
      ensures twice[i] == once[i]
    {
    }
  }

  // ---------------------------------------------------------------------
  // Site settings

  /** The settings that have an input on the settings tab. */
  datatype SettingsField =
    | SiteName | Tagline | PrimaryColor | SecondaryColor
    | ContactEmail | ContactPhone | Address
    | PrivacyPolicy | TermsPolicy | CancellationPolicy

  /** The value an input shows. */
  function FieldValue(s: SiteSettings, f: SettingsField): string
  {
    match f
    case SiteName => s.siteName
    case Tagline => s.tagline
    case PrimaryColor => s.primaryColor
    case SecondaryColor => s.secondaryColor
    case ContactEmail => s.contactEmail
    case ContactPhone => s.contactPhone
    case Address => s.address
    case PrivacyPolicy => s.policies.privacy
    case TermsPolicy => s.policies.terms
    case CancellationPolicy => s.policies.cancellation
  }

  /** Settings are determined by the values of their inputs together with the
      logo and the social media handles, which have no input. */
  lemma SettingsExtensional(s: SiteSettings, t: SiteSettings)
    requires s.logo == t.logo && s.socialMedia == t.socialMedia
    requires forall f :: FieldValue(s, f) == FieldValue(t, f)
    ensures s == t
  {
    assert FieldValue(s, SiteName) == FieldValue(t, SiteName);
    assert FieldValue(s, Tagline) == FieldValue(t, Tagline);
    assert FieldValue(s, PrimaryColor) == FieldValue(t, PrimaryColor);
    assert FieldValue(s, SecondaryColor) == FieldValue(t, SecondaryColor);
    assert FieldValue(s, ContactEmail) == FieldValue(t, ContactEmail);
    assert FieldValue(s, ContactPhone) == FieldValue(t, ContactPhone);
    assert FieldValue(s, Address) == FieldValue(t, Address);
    assert FieldValue(s, PrivacyPolicy) == FieldValue(t, PrivacyPolicy);
    assert FieldValue(s, TermsPolicy) == FieldValue(t, TermsPolicy);
    assert FieldValue(s, CancellationPolicy) == FieldValue(t, CancellationPolicy);
  }

  /** The `onChange` of one input: `{...siteSettings, field: value}`, or for a
      policy `{...siteSettings, policies: {...policies, policy: value}}`. The
      edited input now shows the new value, and every other input, the logo
      and the social media handles keep theirs. */
  function UpdateSetting(s: SiteSettings, f: SettingsField, value: string): (r: SiteSettings)
    ensures FieldValue(r, f) == value
    ensures forall g :: g != f ==> FieldValue(r, g) == FieldValue(s, g)
    ensures r.logo == s.logo && r.socialMedia == s.socialMedia
  {
    match f
    case SiteName => s.(siteName := value)
    case Tagline => s.(tagline := value)
    case PrimaryColor => s.(primaryColor := value)
    case SecondaryColor => s.(secondaryColor := value)
    case ContactEmail => s.(contactEmail := value)
    case ContactPhone => s.(contactPhone := value)
    case Address => s.(address := value)
    case PrivacyPolicy => s.(policies := s.policies.(privacy := value))
    case TermsPolicy => s.(policies := s.policies.(terms := value))
    case CancellationPolicy => s.(policies := s.policies.(cancellation := value))
  }

  /** Typing into the same input twice keeps only the later value, and
      writing back the value an input already shows changes nothing. */
  lemma {:induction false} UpdateSettingLastWins(s: SiteSettings, f: SettingsField, a: string, b: string)
    ensures UpdateSetting(UpdateSetting(s, f, a), f, b) == UpdateSetting(s, f, b)
    ensures UpdateSetting(s, f, FieldValue(s, f)) == s
  {
    SettingsExtensional(UpdateSetting(UpdateSetting(s, f, a), f, b), UpdateSetting(s, f, b));
    SettingsExtensional(UpdateSetting(s, f, FieldValue(s, f)), s);
  }

  /** Edits of two different inputs do not interfere. */
  lemma {:induction false} UpdateSettingCommutes(s: SiteSettings, f: SettingsField, g: SettingsField, a: string, b: string)
    requires f != g
    ensures UpdateSetting(UpdateSetting(s, f, a), g, b) == UpdateSetting(UpdateSetting(s, g, b), f, a)
  {
    SettingsExtensional(UpdateSetting(UpdateSetting(s, f, a), g, b), UpdateSetting(UpdateSetting(s, g, b), f, a));
  }

  // ---------------------------------------------------------------------
  // Initial content

  function MockBlogPosts(): seq<BlogPost>
  {
    [ BlogPost(1, "The Future of Cyberpunk Hotels",
               "Exploring how technology is reshaping the hospitality industry...",
               "Admin", "2024-01-15", "published"),
      BlogPost(2, "Top 10 Neon Destinations",
               "Discover the most electrifying places to stay in Night City...",
               "Admin", "2024-01-10", "draft") ]
  }

  function MockTestimonials(): seq<Testimonial>
  {
    [ Testimonial(1, "Alex Chen", 5,
                  "Absolutely incredible experience! The cyberpunk atmosphere was perfect.",
                  "Neo Tokyo Suites", "2024-01-12"),
      Testimonial(2, "Sarah Johnson", 5,
                  "The holographic amenities blew my mind. Will definitely return!",
                  "Quantum Luxury Resort", "2024-01-08") ]
  }

  function MockContactMessages(): seq<ContactMessage>
  {
    [ ContactMessage(1, "Marcus Rodriguez", "marcus@example.com", "Booking Inquiry",
                     "I'd like to know more about your premium suites...", "2024-01-14", "unread") ]
  }

  function InitialSettings(): SiteSettings
  {
    SiteSettings(
      "NEON HORIZON", "The future of hospitality", "", "#31e6ed", "#9d4edd",
      "info@neonhorizon.com", "+1 (555) 123-4567", "123 Cyber Street, Night City",
      SocialMedia("@neonhorizon", "@neonhorizon", "neonhorizon"),
      Policies("Our privacy policy ensures your data is secure...",
               "Terms and conditions for booking...",
               "Cancellation policy details..."))
  }

  // ---------------------------------------------------------------------
  // The component state

  /** The editor's state that its handlers replace. */
  class WebsiteCustomizationView {
    var isEditingBlock: bool
    var selectedBlock: Option<HomepageBlock>
    var blogPosts: seq<BlogPost>
    var testimonials: seq<Testimonial>
    var contactMessages: seq<ContactMessage>
    var siteSettings: SiteSettings

    /** Whenever the edit dialog is open, a block is selected. */
    ghost predicate Valid()
      reads this
    {
      isEditingBlock ==> selectedBlock.Some?
    }

    /** The title of the block dialog, `Edit {selectedBlock?.name}`: while the
        dialog is open it always names the selected block. */
    function DialogTitle(): (r: string)
      reads this
      ensures selectedBlock.None? ==> r == "Edit "
      ensures Valid() && isEditingBlock ==> r == "Edit " + selectedBlock.value.name
    {
      match selectedBlock
      case None => "Edit "
      case Some(b) => "Edit " + b.name
    }

    /** The editor starts with the dialog closed, nothing selected and the mock content. */
    constructor ()
      ensures Valid()
      ensures !isEditingBlock && selectedBlock == None
      ensures blogPosts == MockBlogPosts() && testimonials == MockTestimonials()
      ensures contactMessages == MockContactMessages() && siteSettings == InitialSettings()
    {
      isEditingBlock := false;
      selectedBlock := None;
      blogPosts := MockBlogPosts();
      testimonials := MockTestimonials();
      contactMessages := MockContactMessages();
      siteSettings := InitialSettings();
    }

    /** `handleBlockEdit`: selects the block and opens the dialog. */
    method HandleBlockEdit(block: HomepageBlock)
      modifies this
      ensures Valid()
      ensures selectedBlock == Some(block) && isEditingBlock
      ensures blogPosts == old(blogPosts) && testimonials == old(testimonials)
      ensures contactMessages == old(contactMessages) && siteSettings == old(siteSettings)
    {
      selectedBlock := Some(block);
      isEditingBlock := true;
    }

    /** `handleSaveBlock`: closes the dialog and clears the selection; the
        block it is given is only logged. */
    method HandleSaveBlock(updatedBlock: Option<HomepageBlock>)
      modifies this
      ensures Valid()
      ensures !isEditingBlock && selectedBlock == None
      ensures blogPosts == old(blogPosts) && testimonials == old(testimonials)
      ensures contactMessages == old(contactMessages) && siteSettings == old(siteSettings)
    {
      isEditingBlock := false;
      selectedBlock := None;
    }

    /** Cancel, and dismissing the dialog: closes it and keeps the selection. */
    method CloseBlockDialog()
      modifies this
      ensures Valid()
      ensures !isEditingBlock && selectedBlock == old(selectedBlock)
      ensures blogPosts == old(blogPosts) && testimonials == old(testimonials)
      ensures contactMessages == old(contactMessages) && siteSettings == old(siteSettings)
    {
      isEditingBlock := false;
    }

    /** `handleDeleteBlogPost`. */
    method HandleDeleteBlogPost(id: int)
      requires Valid()
      modifies this
      ensures Valid()
      ensures blogPosts == DeleteBlogPost(old(blogPosts), id)
      ensures isEditingBlock == old(isEditingBlock) && selectedBlock == old(selectedBlock)
      ensures testimonials == old(testimonials) && contactMessages == old(contactMessages)
      ensures siteSettings == old(siteSettings)
    {
      blogPosts := DeleteBlogPost(blogPosts, id);
    }

    /** `handleDeleteTestimonial`. */
    method HandleDeleteTestimonial(id: int)
      requires Valid()
      modifies this
      ensures Valid()
      ensures testimonials == DeleteTestimonial(old(testimonials), id)
      ensures isEditingBlock == old(isEditingBlock) && selectedBlock == old(selectedBlock)
      ensures blogPosts == old(blogPosts) && contactMessages == old(contactMessages)
      ensures siteSettings == old(siteSettings)
    {
      testimonials := DeleteTestimonial(testimonials, id);
    }

    /** `handleMarkMessageRead`. */
    method HandleMarkMessageRead(id: int)
      requires Valid()
      modifies this
      ensures Valid()
      ensures contactMessages == MarkMessageRead(old(contactMessages), id)
      ensures isEditingBlock == old(isEditingBlock) && selectedBlock == old(selectedBlock)
      ensures blogPosts == old(blogPosts) && testimonials == old(testimonials)
      ensures siteSettings == old(siteSettings)
    {
      contactMessages := MarkMessageRead(contactMessages, id);
    }

    /** The `onChange` of one settings input. */
    method EditSetting(field: SettingsField, value: string)
      requires Valid()
      modifies this
      ensures Valid()
      ensures siteSettings == UpdateSetting(old(siteSettings), field, value)
      ensures isEditingBlock == old(isEditingBlock) && selectedBlock == old(selectedBlock)
      ensures blogPosts == old(blogPosts) && testimonials == old(testimonials)
      ensures contactMessages == old(contactMessages)
    {
      siteSettings := UpdateSetting(siteSettings, field, value);
    }
  }
}
